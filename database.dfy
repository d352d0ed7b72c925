/**
 * The local object store behind the app: three auto-increment tables
 * (`users`, `alarms`, `sessions`), a unique `email` index on users and
 * non-unique `userId` / `alarmId` indexes, updated one request at a time.
 */
module Database {
  import opened Outcomes
  import opened Keyed

  /** A point in time in milliseconds; the store keeps it as an ISO string. */
  type Timestamp = int

  datatype User = User(id: nat, email: string, password: string, fullName: string, createdAt: Timestamp)
  datatype Alarm = Alarm(
    id: nat, userId: nat, name: string,
    uptime: int, downtime: int, repetitions: int,  // minutes, minutes, count
    createdAt: Timestamp)
  datatype Session = Session(id: nat, alarmId: nat, userId: nat, completedAt: Timestamp, totalDuration: int)

  /** What callers hand to the create operations: a record without its id. */
  datatype NewUser = NewUser(email: string, password: string, fullName: string)
  datatype NewAlarm = NewAlarm(userId: nat, name: string, uptime: int, downtime: int, repetitions: int)
  datatype NewSession = NewSession(alarmId: nat, userId: nat, completedAt: Timestamp, totalDuration: int)

  /** A `Partial<PomodoroAlarm>`: `None` is a key absent from the object. */
  datatype AlarmPatch = AlarmPatch(
    id: Option<nat>, userId: Option<nat>, name: Option<string>,
    uptime: Option<int>, downtime: Option<int>, repetitions: Option<int>,
    createdAt: Option<Timestamp>)

  const NoChanges := AlarmPatch(None, None, None, None, None, None, None)

  // Primary keys and index fields, as functions a table can be ordered or filtered by.
  function UserKey(u: User): nat { u.id }
  function UserEmail(u: User): string { u.email }
  function AlarmKey(a: Alarm): nat { a.id }
  function AlarmOwner(a: Alarm): nat { a.userId }
  function SessionKey(s: Session): nat { s.id }
  function SessionOwner(s: Session): nat { s.userId }
  function SessionAlarm(s: Session): nat { s.alarmId }

  /** The unique `email` index holds. */
  predicate UniqueEmails(users: seq<User>) {
    forall i, j :: 0 <= i < j < |users| ==> users[i].email != users[j].email
  }

  /** `index('email').get(email)`: the user with that email, if any. */
  function UserWithEmail(users: seq<User>, email: string): (r: Option<User>)
    ensures r.Some? ==> r.value in users && r.value.email == email
    ensures r.None? ==> forall u :: u in users ==> u.email != email
    ensures r.Some? && UniqueEmails(users) ==>
      forall u :: u in users && u.email == email ==> u == r.value
  {
    var hits := Where(users, UserEmail, email);
    if hits == [] then None
    else
      assert hits[0] in hits;
      Some(hits[0])
  }

  /** Some stored user has exactly these credentials. */
  predicate Registered(users: seq<User>, email: string, password: string) {
    exists u :: u in users && u.email == email && u.password == password
  }

  /**
   * `{...existing, ...patch, id, userId: existing.userId}`: the patch's keys
   * win except the two that are forced back.
   */
  function Overlay(a: Alarm, p: AlarmPatch): (r: Alarm)
    ensures r.id == a.id && r.userId == a.userId
  {
    Alarm(a.id, a.userId, p.name.GetOr(a.name), p.uptime.GetOr(a.uptime),
          p.downtime.GetOr(a.downtime), p.repetitions.GetOr(a.repetitions),
          p.createdAt.GetOr(a.createdAt))
  }

  /** Applying `p` and then `q` is applying `q` over `p`. */
  function Then(p: AlarmPatch, q: AlarmPatch): AlarmPatch {
    AlarmPatch(
      if q.id.Some? then q.id else p.id,
      if q.userId.Some? then q.userId else p.userId,
      if q.name.Some? then q.name else p.name,
      if q.uptime.Some? then q.uptime else p.uptime,
      if q.downtime.Some? then q.downtime else p.downtime,
      if q.repetitions.Some? then q.repetitions else p.repetitions,
      if q.createdAt.Some? then q.createdAt else p.createdAt)
  }

  lemma OverlayProperties(a: Alarm, p: AlarmPatch, q: AlarmPatch)
    ensures Overlay(a, NoChanges) == a
    ensures Overlay(Overlay(a, p), p) == Overlay(a, p)
    ensures Overlay(Overlay(a, p), q) == Overlay(a, Then(p, q))
    ensures p.name.Some? ==> Overlay(a, p).name == p.name.value
    ensures p.name.None? ==> Overlay(a, p).name == a.name
    ensures p.uptime.Some? ==> Overlay(a, p).uptime == p.uptime.value
    ensures p.uptime.None? ==> Overlay(a, p).uptime == a.uptime
    ensures p.downtime.Some? ==> Overlay(a, p).downtime == p.downtime.value
    ensures p.downtime.None? ==> Overlay(a, p).downtime == a.downtime
    ensures p.repetitions.Some? ==> Overlay(a, p).repetitions == p.repetitions.value
    ensures p.repetitions.None? ==> Overlay(a, p).repetitions == a.repetitions
    ensures p.createdAt.Some? ==> Overlay(a, p).createdAt == p.createdAt.value
    ensures p.createdAt.None? ==> Overlay(a, p).createdAt == a.createdAt
  {
  }

  // Sample data seeded by `createSampleData`.
  const Demo := NewUser("demo@example.com", "password123", "Usuario Demo")
  function SampleAlarm1(userId: nat): NewAlarm { NewAlarm(userId, "Pomodoro 1", 25, 5, 4) }
  function SampleAlarm2(userId: nat): NewAlarm { NewAlarm(userId, "Pomodoro 2", 30, 10, 3) }

  const Hour := 60 * 60 * 1000
  const Day := 24 * Hour

  /** For each sample session, in insertion order: which sample alarm (1 or 2) and how long before now it completed. */
  const SamplePlan: seq<(nat, int)> := [
    (1, 2 * Hour), (2, 4 * Hour),                      // today
    (1, Day + Hour), (2, Day + 3 * Hour),              // yesterday
    (1, 2 * Day + 2 * Hour),                           // two days ago
    (2, 3 * Day + Hour), (1, 3 * Day + 4 * Hour),      // three days ago
    (1, 7 * Day + 2 * Hour), (2, 7 * Day + 5 * Hour),  // one week ago
    (1, 14 * Day + Hour),                              // two weeks ago
    (2, 30 * Day + 3 * Hour), (1, 30 * Day + 6 * Hour) // one month ago
  ]

  function SampleSession(k: nat, userId: nat, alarm1: nat, alarm2: nat, now: Timestamp): NewSession
    requires k < |SamplePlan|
  {
    NewSession(if SamplePlan[k].0 == 1 then alarm1 else alarm2, userId, now - SamplePlan[k].1, 120)
  }

  function StoredUser(u: NewUser, id: nat, now: Timestamp): User { User(id, u.email, u.password, u.fullName, now) }
  function StoredAlarm(a: NewAlarm, id: nat, now: Timestamp): Alarm {
    Alarm(id, a.userId, a.name, a.uptime, a.downtime, a.repetitions, now)
  }
  function StoredSession(s: NewSession, id: nat): Session { Session(id, s.alarmId, s.userId, s.completedAt, s.totalDuration) }

  /** The two sample alarms as stored, keyed from `firstId`. */
  function SampleAlarms(userId: nat, firstId: nat, now: Timestamp): seq<Alarm> {
    [StoredAlarm(SampleAlarm1(userId), firstId, now), StoredAlarm(SampleAlarm2(userId), firstId + 1, now)]
  }

  /** The twelve sample sessions as stored, keyed from `firstId`. */
  function SampleSessions(userId: nat, alarm1: nat, alarm2: nat, firstId: nat, now: Timestamp): (r: seq<Session>)
    ensures |r| == 12
    ensures forall i :: 0 <= i < |r| ==>
      && r[i].id == firstId + i && r[i].userId == userId && r[i].totalDuration == 120
      && r[i].completedAt < now
  {
    seq(|SamplePlan|, k requires 0 <= k < |SamplePlan| =>
      StoredSession(SampleSession(k, userId, alarm1, alarm2, now), firstId + k))
  }

  /** The seeded history: seven sessions on the first alarm, five on the second. */
  lemma SampleSessionsShape(userId: nat, alarm1: nat, alarm2: nat, firstId: nat, now: Timestamp)
    requires alarm1 != alarm2
    ensures var s := SampleSessions(userId, alarm1, alarm2, firstId, now);
      && |Where(s, SessionAlarm, alarm1)| == 7
      && |Where(s, SessionAlarm, alarm2)| == 5
  {
    var s := SampleSessions(userId, alarm1, alarm2, firstId, now);
    assert SessionAlarm(s[0]) == alarm1 && SessionAlarm(s[1]) == alarm2;
    assert SessionAlarm(s[2]) == alarm1 && SessionAlarm(s[3]) == alarm2;
    assert SessionAlarm(s[4]) == alarm1 && SessionAlarm(s[5]) == alarm2;
    assert SessionAlarm(s[6]) == alarm1 && SessionAlarm(s[7]) == alarm1;
    assert SessionAlarm(s[8]) == alarm2 && SessionAlarm(s[9]) == alarm1;
    assert SessionAlarm(s[10]) == alarm2 && SessionAlarm(s[11]) == alarm1;
    CountSamplePattern(s, alarm1, alarm2);
  }

  /** Counting over the insertion pattern 1 2 1 2 1 2 1 1 2 1 2 1, one row at a time from the end. */
  lemma CountSamplePattern(s: seq<Session>, a: nat, b: nat)
    requires |s| == 12 && a != b
    requires SessionAlarm(s[0]) == a && SessionAlarm(s[1]) == b && SessionAlarm(s[2]) == a && SessionAlarm(s[3]) == b && SessionAlarm(s[4]) == a && SessionAlarm(s[5]) == b && SessionAlarm(s[6]) == a && SessionAlarm(s[7]) == a && SessionAlarm(s[8]) == b && SessionAlarm(s[9]) == a && SessionAlarm(s[10]) == b && SessionAlarm(s[11]) == a
    ensures |Where(s, SessionAlarm, a)| == 7 && |Where(s, SessionAlarm, b)| == 5
  {
    assert s[12..] == [];
    WhereStep(s, SessionAlarm, a, 11); WhereStep(s, SessionAlarm, b, 11);
    assert |Where(s[11..], SessionAlarm, a)| == 1 && |Where(s[11..], SessionAlarm, b)| == 0;
    WhereStep(s, SessionAlarm, a, 10); WhereStep(s, SessionAlarm, b, 10);
    assert |Where(s[10..], SessionAlarm, a)| == 1 && |Where(s[10..], SessionAlarm, b)| == 1;
    WhereStep(s, SessionAlarm, a, 9); WhereStep(s, SessionAlarm, b, 9);
    assert |Where(s[9..], SessionAlarm, a)| == 2 && |Where(s[9..], SessionAlarm, b)| == 1;
    WhereStep(s, SessionAlarm, a, 8); WhereStep(s, SessionAlarm, b, 8);
    assert |Where(s[8..], SessionAlarm, a)| == 2 && |Where(s[8..], SessionAlarm, b)| == 2;
    WhereStep(s, SessionAlarm, a, 7); WhereStep(s, SessionAlarm, b, 7);
    assert |Where(s[7..], SessionAlarm, a)| == 3 && |Where(s[7..], SessionAlarm, b)| == 2;
    WhereStep(s, SessionAlarm, a, 6); WhereStep(s, SessionAlarm, b, 6);
    assert |Where(s[6..], SessionAlarm, a)| == 4 && |Where(s[6..], SessionAlarm, b)| == 2;
    WhereStep(s, SessionAlarm, a, 5); WhereStep(s, SessionAlarm, b, 5);
    assert |Where(s[5..], SessionAlarm, a)| == 4 && |Where(s[5..], SessionAlarm, b)| == 3;
    WhereStep(s, SessionAlarm, a, 4); WhereStep(s, SessionAlarm, b, 4);
    assert |Where(s[4..], SessionAlarm, a)| == 5 && |Where(s[4..], SessionAlarm, b)| == 3;
    WhereStep(s, SessionAlarm, a, 3); WhereStep(s, SessionAlarm, b, 3);
    assert |Where(s[3..], SessionAlarm, a)| == 5 && |Where(s[3..], SessionAlarm, b)| == 4;
    WhereStep(s, SessionAlarm, a, 2); WhereStep(s, SessionAlarm, b, 2);
    assert |Where(s[2..], SessionAlarm, a)| == 6 && |Where(s[2..], SessionAlarm, b)| == 4;
    WhereStep(s, SessionAlarm, a, 1); WhereStep(s, SessionAlarm, b, 1);
    assert |Where(s[1..], SessionAlarm, a)| == 6 && |Where(s[1..], SessionAlarm, b)| == 5;
    WhereStep(s, SessionAlarm, a, 0); WhereStep(s, SessionAlarm, b, 0);
    assert |Where(s[0..], SessionAlarm, a)| == 7 && |Where(s[0..], SessionAlarm, b)| == 5;
    assert s[0..] == s;
  }

  /**
   * The `DatabaseService`: the three tables with their key generators.
   * `ready` says whether opening the database succeeded; when it did not,
   * the service has no database handle and every request rejects.
   */
  class DatabaseService {
    const ready: bool
    var users: seq<User>
    var alarms: seq<Alarm>
    var sessions: seq<Session>
    var nextUserId: nat
    var nextAlarmId: nat
    var nextSessionId: nat

    ghost predicate Valid()
      reads this
    {
      && Table(users, UserKey, nextUserId)
      && Table(alarms, AlarmKey, nextAlarmId)
      && Table(sessions, SessionKey, nextSessionId)
      && UniqueEmails(users)
    }

    /**
     * Opens a fresh database (`didOpen` says whether that succeeded) and, as
     * `initDatabase` does, seeds the sample data into it.
     */
    constructor (didOpen: bool, now: Timestamp)
      ensures Valid() && ready == didOpen
      ensures !ready ==> users == [] && alarms == [] && sessions == []
      ensures !ready ==> nextUserId == 1 && nextAlarmId == 1 && nextSessionId == 1
      ensures ready ==>
        && users == [StoredUser(Demo, 1, now)]
        && alarms == SampleAlarms(1, 1, now)
        && sessions == SampleSessions(1, 1, 2, 1, now)
        && nextUserId == 2 && nextAlarmId == 3 && nextSessionId == 13
    {
      ready := didOpen;
      users, alarms, sessions := [], [], [];
      nextUserId, nextAlarmId, nextSessionId := 1, 1, 1;
      new;
      CreateSampleData(false, None, now);
    }

    method CreateUser(u: NewUser, now: Timestamp) returns (r: Result<User>)
      requires Valid()
      modifies this
      ensures Valid()
      ensures !ready ==> r == Err(Unavailable)
      ensures ready && UserWithEmail(old(users), u.email).Some? ==> r == Err(ConstraintError)
      ensures ready && UserWithEmail(old(users), u.email).None? ==> r.Ok?
      ensures r.Ok? ==>
        && r.value == StoredUser(u, old(nextUserId), now)
        && (forall x :: x in old(users) ==> x.id != r.value.id)
        && users == old(users) + [r.value]
        && nextUserId == old(nextUserId) + 1
      ensures r.Err? ==> users == old(users) && nextUserId == old(nextUserId)
      ensures alarms == old(alarms) && nextAlarmId == old(nextAlarmId)
      ensures sessions == old(sessions) && nextSessionId == old(nextSessionId)
    {
      if !ready {
        return Err(Unavailable);
      }
      if UserWithEmail(users, u.email).Some? {
        // the failed request aborts its transaction; the key generator rolls back
        return Err(ConstraintError);
      }
      var stored := StoredUser(u, nextUserId, now);
      TableAppend(users, UserKey, nextUserId, stored);
      users := users + [stored];
      nextUserId := nextUserId + 1;
      r := Ok(stored);
    }

    method GetUserByEmail(email: string) returns (r: Result<Option<User>>)
      requires Valid()
      ensures !ready ==> r == Err(Unavailable)
      ensures ready ==> r.Ok?
      ensures r.Ok? && r.value.Some? ==> r.value.value in users && r.value.value.email == email
      ensures r.Ok? && r.value.None? ==> forall x :: x in users ==> x.email != email
    {
      if !ready {
        return Err(Unavailable);
      }
      r := Ok(UserWithEmail(users, email));
    }

    method ValidateUser(email: string, password: string) returns (r: Result<Option<User>>)
      requires Valid()
      ensures !ready ==> r == Err(Unavailable)
      ensures ready ==> r.Ok?
      ensures r.Ok? ==> (r.value.Some? <==> Registered(users, email, password))
      ensures r.Ok? && r.value.Some? ==>
        r.value.value in users && r.value.value.email == email && r.value.value.password == password
    {
      var found := GetUserByEmail(email);
      if found.Err? {
        return Err(found.error);
      }
      if found.value.Some? && found.value.value.password == password {
        return Ok(found.value);
      }
      assert UserWithEmail(users, email) == found.value;
      return Ok(None);
    }

    method CreateAlarm(a: NewAlarm, now: Timestamp) returns (r: Result<Alarm>)
      requires Valid()
      modifies this
      ensures Valid()
      ensures r.Ok? <==> ready
      ensures !ready ==> r == Err(Unavailable) && alarms == old(alarms) && nextAlarmId == old(nextAlarmId)
      ensures r.Ok? ==>
        && r.value == StoredAlarm(a, old(nextAlarmId), now)
        && (forall x :: x in old(alarms) ==> x.id != r.value.id)
        && alarms == old(alarms) + [r.value]
        && nextAlarmId == old(nextAlarmId) + 1
      ensures users == old(users) && nextUserId == old(nextUserId)
      ensures sessions == old(sessions) && nextSessionId == old(nextSessionId)
    {
      if !ready {
        return Err(Unavailable);
      }
      var stored := StoredAlarm(a, nextAlarmId, now);
      TableAppend(alarms, AlarmKey, nextAlarmId, stored);
      alarms := alarms + [stored];
      nextAlarmId := nextAlarmId + 1;
      r := Ok(stored);
    }

    method UpdateAlarm(id: nat, patch: AlarmPatch) returns (r: Result<Alarm>)
      requires Valid()
      modifies this
      ensures Valid()
      ensures !ready ==> r == Err(Unavailable)
      ensures ready && Find(old(alarms), AlarmKey, id).None? ==> r == Err(AlarmNotFound)
      ensures ready && Find(old(alarms), AlarmKey, id).Some? ==> r.Ok?
      ensures r.Err? ==> alarms == old(alarms)
      ensures r.Ok? ==>
        exists k :: 0 <= k < |old(alarms)| && old(alarms)[k].id == id
          && r.value == Overlay(old(alarms)[k], patch)
          && alarms == old(alarms)[k := r.value]
      ensures users == old(users) && sessions == old(sessions)
      ensures nextUserId == old(nextUserId) && nextAlarmId == old(nextAlarmId) && nextSessionId == old(nextSessionId)
    {
      if !ready {
        return Err(Unavailable);
      }
      var at := Find(alarms, AlarmKey, id);
      if at.None? {
        return Err(AlarmNotFound);
      }
      var k := at.value;
      var updated := Overlay(alarms[k], patch);
      TableReplace(alarms, AlarmKey, nextAlarmId, k, updated);
      alarms := alarms[k := updated];
      r := Ok(updated);
    }

    method DeleteAlarm(id: nat) returns (r: Result<()>)
      requires Valid()
      modifies this
      ensures Valid()
      ensures r.Ok? <==> ready
      ensures !ready ==> r == Err(Unavailable) && alarms == old(alarms)
      ensures ready ==> alarms == Except(old(alarms), AlarmKey, id)
      ensures ready ==> forall a :: a in alarms <==> a in old(alarms) && a.id != id
      ensures users == old(users) && sessions == old(sessions)
      ensures nextUserId == old(nextUserId) && nextAlarmId == old(nextAlarmId) && nextSessionId == old(nextSessionId)
    {
      if !ready {
        return Err(Unavailable);
      }
      ExceptByKey(alarms, AlarmKey, id);
      var at := Find(alarms, AlarmKey, id);
      if at.Some? {
        TableRemoveAt(alarms, AlarmKey, nextAlarmId, at.value);
        alarms := alarms[..at.value] + alarms[at.value + 1..];
      }
      r := Ok(());
    }

    method GetAlarmsByUser(userId: nat) returns (r: Result<seq<Alarm>>)
      requires Valid()
      ensures r.Ok? <==> ready
      ensures !ready ==> r == Err(Unavailable)
      ensures r.Ok? ==> r.value == Where(alarms, AlarmOwner, userId)
      ensures r.Ok? ==> forall a :: a in r.value <==> a in alarms && a.userId == userId
    {
      if !ready {
        return Err(Unavailable);
      }
      r := Ok(Where(alarms, AlarmOwner, userId));
    }

    method CreateSession(s: NewSession) returns (r: Result<Session>)
      requires Valid()
      modifies this
      ensures Valid()
      ensures r.Ok? <==> ready
      ensures !ready ==> r == Err(Unavailable) && sessions == old(sessions) && nextSessionId == old(nextSessionId)
      ensures r.Ok? ==>
        && r.value == StoredSession(s, old(nextSessionId))
        && (forall x :: x in old(sessions) ==> x.id != r.value.id)
        && sessions == old(sessions) + [r.value]
        && nextSessionId == old(nextSessionId) + 1
      ensures users == old(users) && nextUserId == old(nextUserId)
      ensures alarms == old(alarms) && nextAlarmId == old(nextAlarmId)
    {
      if !ready {
        return Err(Unavailable);
      }
      var stored := StoredSession(s, nextSessionId);
      TableAppend(sessions, SessionKey, nextSessionId, stored);
      sessions := sessions + [stored];
      nextSessionId := nextSessionId + 1;
      r := Ok(stored);
    }

    method GetSessionsByUser(userId: nat) returns (r: Result<seq<Session>>)
      requires Valid()
      ensures r.Ok? <==> ready
      ensures !ready ==> r == Err(Unavailable)
      ensures r.Ok? ==> r.value == Where(sessions, SessionOwner, userId)
      ensures r.Ok? ==> forall s :: s in r.value <==> s in sessions && s.userId == userId
    {
      if !ready {
        return Err(Unavailable);
      }
      r := Ok(Where(sessions, SessionOwner, userId));
    }

    /** Sessions keep their `alarmId` after the alarm is deleted, so this still finds them. */
    method GetSessionsByAlarm(alarmId: nat) returns (r: Result<seq<Session>>)
      requires Valid()
      ensures r.Ok? <==> ready
      ensures !ready ==> r == Err(Unavailable)
      ensures r.Ok? ==> r.value == Where(sessions, SessionAlarm, alarmId)
      ensures r.Ok? ==> forall s :: s in r.value <==> s in sessions && s.alarmId == alarmId
    {
      if !ready {
        return Err(Unavailable);
      }
      r := Ok(Where(sessions, SessionAlarm, alarmId));
    }

    /**
     * Walks a cursor over the `userId` index of alarms and then of sessions,
     * deleting every row it visits.
     */
    method ClearUserData(userId: nat) returns (r: Result<()>)
      requires Valid()
      modifies this
      ensures Valid()
      ensures r.Ok? <==> ready
      ensures !ready ==> r == Err(Unavailable) && alarms == old(alarms) && sessions == old(sessions)
      ensures ready ==> alarms == Except(old(alarms), AlarmOwner, userId)
      ensures ready ==> sessions == Except(old(sessions), SessionOwner, userId)
      ensures users == old(users)
      ensures nextUserId == old(nextUserId) && nextAlarmId == old(nextAlarmId) && nextSessionId == old(nextSessionId)
    {
      if !ready {
        return Err(Unavailable);
      }
      var keptAlarms := DeleteWhere(alarms, AlarmKey, nextAlarmId, AlarmOwner, userId);
      var keptSessions := DeleteWhere(sessions, SessionKey, nextSessionId, SessionOwner, userId);
      alarms, sessions := keptAlarms, keptSessions;
      r := Ok(());
    }

    /** Clears the three stores; their key generators keep counting. */
    method ClearAllData() returns (r: Result<()>)
      requires Valid()
      modifies this
      ensures Valid()
      ensures r.Ok? <==> ready
      ensures !ready ==> r == Err(Unavailable)
      ensures !ready ==> users == old(users) && alarms == old(alarms) && sessions == old(sessions)
      ensures ready ==> users == [] && alarms == [] && sessions == []
      ensures nextUserId == old(nextUserId) && nextAlarmId == old(nextAlarmId) && nextSessionId == old(nextSessionId)
    {
      if !ready {
        return Err(Unavailable);
      }
      users, alarms, sessions := [], [], [];
      r := Ok(());
    }

    /**
     * Seeds a sample user, two alarms and twelve sessions. With `force` and a
     * (truthy) target user it first clears that user's data and seeds for
     * them; with `force` alone it wipes everything and seeds a demo user;
     * without `force` it does nothing once any user exists.
     * Every request fails exactly when the database is not open, and then the
     * first one already fails, so an error leaves the tables as they were.
     */
    method CreateSampleData(force: bool, target: Option<nat>, now: Timestamp)
      requires Valid()
      modifies this
      ensures Valid()
      ensures !ready || (!force && |old(users)| > 0) ==>
        && users == old(users) && alarms == old(alarms) && sessions == old(sessions)
        && nextUserId == old(nextUserId) && nextAlarmId == old(nextAlarmId) && nextSessionId == old(nextSessionId)
      ensures ready && force && target.Some? && target.value != 0 ==>
        && users == old(users) && nextUserId == old(nextUserId)
        && alarms == Except(old(alarms), AlarmOwner, target.value) + SampleAlarms(target.value, old(nextAlarmId), now)
        && sessions == Except(old(sessions), SessionOwner, target.value)
                       + SampleSessions(target.value, old(nextAlarmId), old(nextAlarmId) + 1, old(nextSessionId), now)
        && nextAlarmId == old(nextAlarmId) + 2 && nextSessionId == old(nextSessionId) + 12
      ensures ready && force && !(target.Some? && target.value != 0) ==>
        && users == [StoredUser(Demo, old(nextUserId), now)]
        && alarms == SampleAlarms(old(nextUserId), old(nextAlarmId), now)
        && sessions == SampleSessions(old(nextUserId), old(nextAlarmId), old(nextAlarmId) + 1, old(nextSessionId), now)
        && nextUserId == old(nextUserId) + 1 && nextAlarmId == old(nextAlarmId) + 2 && nextSessionId == old(nextSessionId) + 12
      ensures ready && !force && |old(users)| == 0 ==>
        && users == [StoredUser(Demo, old(nextUserId), now)]
        && alarms == old(alarms) + SampleAlarms(old(nextUserId), old(nextAlarmId), now)
        && sessions == old(sessions) + SampleSessions(old(nextUserId), old(nextAlarmId), old(nextAlarmId) + 1, old(nextSessionId), now)
        && nextUserId == old(nextUserId) + 1 && nextAlarmId == old(nextAlarmId) + 2 && nextSessionId == old(nextSessionId) + 12
    {
      if !ready {
        return;
      }
      var sampleUser: nat;
      if force && target.Some? && target.value != 0 {
        var _ := ClearUserData(target.value);
        sampleUser := target.value;
      } else {
        if force {
          var _ := ClearAllData();
        } else if |users| > 0 {
          return;
        }
        var created := CreateUser(Demo, now);
        sampleUser := created.value.id;
      }

      SeedSampleRows(sampleUser, now);
    }

    /** The part of `createSampleData` after the sample user is chosen: two alarms, then twelve sessions. */
    method SeedSampleRows(userId: nat, now: Timestamp)
      requires Valid() && ready
      modifies this
      ensures Valid()
      ensures alarms == old(alarms) + SampleAlarms(userId, old(nextAlarmId), now)
      ensures sessions == old(sessions) + SampleSessions(userId, old(nextAlarmId), old(nextAlarmId) + 1, old(nextSessionId), now)
      ensures nextAlarmId == old(nextAlarmId) + 2 && nextSessionId == old(nextSessionId) + 12
      ensures users == old(users) && nextUserId == old(nextUserId)
    {
      var alarm1 := CreateAlarm(SampleAlarm1(userId), now);
      var alarm2 := CreateAlarm(SampleAlarm2(userId), now);
      AddSampleSessions(userId, alarm1.value.id, alarm2.value.id, now);
    }

    /** The twelve `createSession` calls of `createSampleData`, on an open database. */
    method AddSampleSessions(userId: nat, alarm1: nat, alarm2: nat, now: Timestamp)
      requires Valid() && ready
      modifies this
      ensures Valid()
      ensures sessions == old(sessions) + SampleSessions(userId, alarm1, alarm2, old(nextSessionId), now)
      ensures nextSessionId == old(nextSessionId) + 12
      ensures users == old(users) && nextUserId == old(nextUserId)
      ensures alarms == old(alarms) && nextAlarmId == old(nextAlarmId)
    {
      ghost var added := SampleSessions(userId, alarm1, alarm2, nextSessionId, now);
      for k := 0 to |SamplePlan|
        invariant Valid()
        invariant sessions == old(sessions) + added[..k]
        invariant nextSessionId == old(nextSessionId) + k
        invariant users == old(users) && nextUserId == old(nextUserId)
        invariant alarms == old(alarms) && nextAlarmId == old(nextAlarmId)
      {
        var _ := CreateSession(SampleSession(k, userId, alarm1, alarm2, now));
        assert added[..k + 1] == added[..k] + [added[k]];
      }
      assert added[..|SamplePlan|] == added;
    }
  }
}
