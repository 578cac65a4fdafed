/** A refresh race, run to its end. */
module SessionRuns {
  import opened Sums
  import opened Sessions

  const ROOT := Session(1, 0, None, 0, 100, None)

  /** One sign-in, two refreshes that read its row, and both writes. */
  predicate IsRace(events: seq<Event>) {
    && |events| == 5
    && events[0] == SignIn(1, 100)
    && events[1] == ReadForRefresh(0, 1, true) && events[2] == ReadForRefresh(0, 1, true)
    && events[3] == Resume(0) && events[4] == Resume(1)
  }

  lemma RunPrefix(db: Db, events: seq<Event>, k: nat)
    requires k < |events|
    ensures Run(db, events[..k + 1]) == Step(Run(db, events[..k]), events[k])
  {
    assert events[..k + 1][..k] == events[..k];
  }

  /** The row is there, `done` requests have read it, and none has written. */
  predicate Waiting(db: Db, done: nat) {
    && db.sessions == map[0 := ROOT] && db.nextSession == 1
    && |db.intents| == done && forall k :: 0 <= k < done ==> db.intents[k] == Rotate(0, ROOT)
  }

  /** One of the two has written: the row is rotated and its child usable. */
  predicate Written(db: Db) {
    && db.sessions.Keys == {0, 1}
    && db.sessions[0] == ROOT.(revoked := Some(Rotated)) && db.sessions[1] == Child(0, ROOT)
    && db.intents == [Rotate(0, ROOT), Rotate(0, ROOT)]
  }

  lemma SignsIn(db: Db)
    requires db == EmptyDb()
    ensures Waiting(Step(db, SignIn(1, 100)), 0)
  {
  }

  lemma Reads(db: Db, done: nat, event: Event)
    requires Waiting(db, done) && event == ReadForRefresh(0, 1, true)
    ensures Waiting(Step(db, event), done + 1)
  {
    assert IntentOf(0, ROOT, 1, true) == [Rotate(0, ROOT)];
  }

  lemma FirstWrites(db: Db, event: Event)
    requires Waiting(db, 2) && event == Resume(0)
    ensures Written(Step(db, event))
  {
    assert Step(db, event) == RotateWrite(db, 0, ROOT);
    RotatedTables(db, 0, ROOT);
  }

  lemma SecondIsRefused(db: Db, event: Event)
    requires Written(db) && event == Resume(1)
    ensures Step(db, event) == db
  {
    assert Step(db, event) == RotateWrite(db, 0, ROOT);
  }

  lemma BothRead(events: seq<Event>)
    requires IsRace(events)
    ensures Waiting(Run(EmptyDb(), events[..3]), 2)
  {
    RunPrefix(EmptyDb(), events, 0);
    SignsIn(Run(EmptyDb(), events[..0]));
    RunPrefix(EmptyDb(), events, 1);
    Reads(Run(EmptyDb(), events[..1]), 0, events[1]);
    RunPrefix(EmptyDb(), events, 2);
    Reads(Run(EmptyDb(), events[..2]), 1, events[2]);
  }

  /** A reachable race: one token is presented twice, the chain keeps a usable session, and no request means to kill it. */
  lemma RaceLeavesWinner(events: seq<Event>)
    requires IsRace(events)
    ensures var db := Run(EmptyDb(), events);
            && db.sessions.Keys == {0, 1}
            && db.sessions[0].revoked == Some(Rotated) && db.sessions[1] == Child(0, ROOT)
            && !Dead(db, 0)
            && forall k :: 0 <= k < |db.intents| ==> !db.intents[k].Kill?
  {
    BothRead(events);
    RunPrefix(EmptyDb(), events, 3);
    FirstWrites(Run(EmptyDb(), events[..3]), events[3]);
    RunPrefix(EmptyDb(), events, 4);
    SecondIsRefused(Run(EmptyDb(), events[..4]), events[4]);
    assert events[..5] == events;
    var db := Run(EmptyDb(), events);
    assert 1 in db.sessions && db.sessions[1].revoked.None?;
  }
}
