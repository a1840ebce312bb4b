/**
 * The store as in-memory tables: the writes of `UserModel.findOrCreate`
 * (bot/src/models/User.ts) and `MessageModel.create`
 * (bot/src/models/Message.ts), under the UNIQUE and REFERENCES constraints
 * of bot/src/database/init.ts.
 */
module Database {
  import opened Wrappers
  import opened Calendar
  import opened Records
  import opened UserModel
  import opened MessageModel

  /** `users.telegram_id` is UNIQUE. */
  predicate UniqueTelegramIds(users: seq<User>)
  {
    forall i, j :: 0 <= i < j < |users| ==> users[i].telegramId != users[j].telegramId
  }

  predicate HasUser(users: seq<User>, telegramId: int)
  {
    exists u :: u in users && u.telegramId == telegramId
  }

  /** SQL `UPDATE users SET username, first_name, last_name WHERE telegram_id = $1`. */
  function UpdateNames(users: seq<User>, telegramId: int, username: Option<string>,
                       firstName: Option<string>, lastName: Option<string>): (r: seq<User>)
    ensures |r| == |users|
    ensures forall i :: 0 <= i < |r| ==>
              r[i] == if users[i].telegramId == telegramId
                      then users[i].(username := username, firstName := firstName, lastName := lastName)
                      else users[i]
  {
    seq(|users|, i requires 0 <= i < |users| =>
      if users[i].telegramId == telegramId
      then users[i].(username := username, firstName := firstName, lastName := lastName)
      else users[i])
  }

  /** The constraints the schema enforces, and the SERIAL counters ahead of every id. */
  predicate ValidTables(users: seq<User>, messages: seq<Message>, nextUserId: nat, nextMessageId: nat)
  {
    && UniqueTelegramIds(users)
    && (forall m :: m in messages ==> HasUser(users, m.userId))
    && (forall u :: u in users ==> u.id < nextUserId)
    && (forall m :: m in messages ==> m.id < nextMessageId)
  }

  class Store {
    var users: seq<User>
    var messages: seq<Message>
    /** The next values of the two SERIAL sequences. */
    var nextUserId: nat
    var nextMessageId: nat
    /** The error every query raises while the pool is down; none while it answers. */
    var failure: Option<DbError>

    ghost predicate Valid()
      reads this
    {
      ValidTables(users, messages, nextUserId, nextMessageId)
    }

    constructor ()
      ensures Valid() && users == [] && messages == [] && failure == None
    {
      users, messages := [], [];
      nextUserId, nextMessageId := 1, 1;
      failure := None;
    }

    /**
     * `findOrCreate`: the user with `telegramId`, inserted if absent, and with
     * its three name fields overwritten if any of them differs. A query error
     * is logged and raised again: the caller gets it and the tables stay as
     * they were.
     */
    method FindOrCreate(telegramId: int, username: Option<string>, firstName: Option<string>,
                        lastName: Option<string>, now: Instant) returns (r: Result<User, DbError>)
      requires Valid()
      modifies this
      ensures Valid() && failure == old(failure)
      ensures messages == old(messages) && nextMessageId == old(nextMessageId)
      ensures r.Success? <==> failure.None?
      ensures r.Failure? ==> r.error == failure.value && users == old(users) && nextUserId == old(nextUserId)
      ensures r.Success? ==>
                && FindByTelegramId(users, telegramId) == Some(r.value)
                && r.value.telegramId == telegramId
                && (r.value.username, r.value.firstName, r.value.lastName) == (username, firstName, lastName)
      ensures r.Success? ==>
              match old(FindByTelegramId(users, telegramId))
              case None =>
                && r.value == User(old(nextUserId), telegramId, username, firstName, lastName, now)
                && users == old(users) + [r.value]
                && nextUserId == old(nextUserId) + 1
              case Some(e) =>
                && r.value == e.(username := username, firstName := firstName, lastName := lastName)
                && nextUserId == old(nextUserId)
                && (r.value == e ==> users == old(users))
                && users == UpdateNames(old(users), telegramId, username, firstName, lastName)
    {
      if failure.Some? {
        return Failure(failure.value);
      }
      var existing := FindByTelegramId(users, telegramId);
      match existing
      case Some(e) =>
        UpdateKeepsValid(users, messages, nextUserId, nextMessageId, telegramId, username, firstName, lastName);
        UpdateFinds(users, telegramId, username, firstName, lastName, e);
        if e.username != username || e.firstName != firstName || e.lastName != lastName {
          users := UpdateNames(users, telegramId, username, firstName, lastName);
          r := Success(e.(username := username, firstName := firstName, lastName := lastName));
        } else {
          UpdateUnchanged(users, telegramId, e);
          r := Success(e);
        }
      case None =>
        var u := User(nextUserId, telegramId, username, firstName, lastName, now);
        InsertKeepsValid(users, messages, nextUserId, nextMessageId, u);
        users := users + [u];
        nextUserId := nextUserId + 1;
        r := Success(u);
    }

    /**
     * `create`: appends the message, or fails with the foreign-key violation
     * when no user has `userId` as telegram id. The SERIAL sequence advances
     * either way, as PostgreSQL draws the id before it checks the constraint.
     * With the pool down the INSERT never runs: the caller gets the error and
     * nothing changes.
     */
    method CreateMessage(userId: int, chatId: int, messageText: string, messageDate: Instant, now: Instant)
      returns (r: Result<Message, DbError>)
      requires Valid()
      modifies this
      ensures Valid() && failure == old(failure)
      ensures users == old(users) && nextUserId == old(nextUserId)
      ensures failure.Some? ==>
                && r == Failure(failure.value)
                && messages == old(messages) && nextMessageId == old(nextMessageId)
      ensures failure.None? ==> nextMessageId == old(nextMessageId) + 1
      ensures r.Success? <==> failure.None? && HasUser(users, userId)
      ensures r.Success? ==>
                && r.value == Message(old(nextMessageId), userId, chatId, messageText, messageDate, now)
                && messages == old(messages) + [r.value]
      ensures failure.None? && r.Failure? ==>
                && r.error == ConstraintViolation("messages_user_id_fkey")
                && messages == old(messages)
    {
      if failure.Some? {
        return Failure(failure.value);
      }
      var id := nextMessageId;
      nextMessageId := nextMessageId + 1;
      if FindByTelegramId(users, userId).Some? {
        var m := Message(id, userId, chatId, messageText, messageDate, now);
        messages := messages + [m];
        r := Success(m);
      } else {
        r := Failure(ConstraintViolation("messages_user_id_fkey"));
      }
    }
  }

  /** With unique telegram ids, the row found is the only row with that id. */
  lemma OnlyRow(users: seq<User>, telegramId: int, k: int)
    requires UniqueTelegramIds(users)
    requires FindByTelegramId(users, telegramId).Some?
    requires 0 <= k < |users| && users[k].telegramId == telegramId
    ensures users[k] == FindByTelegramId(users, telegramId).value
  {
    var e := FindByTelegramId(users, telegramId).value;
    var j :| 0 <= j < |users| && users[j] == e;
    assert j == k;
  }

  /** Overwriting the names keeps the constraints. */
  lemma UpdateKeepsValid(users: seq<User>, messages: seq<Message>, nextUserId: nat, nextMessageId: nat,
                         telegramId: int, username: Option<string>, firstName: Option<string>,
                         lastName: Option<string>)
    requires ValidTables(users, messages, nextUserId, nextMessageId)
    ensures ValidTables(UpdateNames(users, telegramId, username, firstName, lastName), messages, nextUserId, nextMessageId)
  {
    var r := UpdateNames(users, telegramId, username, firstName, lastName);
    forall i, j | 0 <= i < j < |r| ensures r[i].telegramId != r[j].telegramId {
      assert r[i].telegramId == users[i].telegramId && r[j].telegramId == users[j].telegramId;
    }
    forall t | HasUser(users, t) ensures HasUser(r, t) {
      var v :| v in users && v.telegramId == t;
      var k :| 0 <= k < |users| && users[k] == v;
      assert r[k].telegramId == t && r[k] in r;
    }
    forall u | u in r ensures u.id < nextUserId {
      var k :| 0 <= k < |r| && r[k] == u;
      assert users[k] in users;
    }
  }

  /** After the update, the row found carries the new names. */
  lemma UpdateFinds(users: seq<User>, telegramId: int, username: Option<string>,
                    firstName: Option<string>, lastName: Option<string>, e: User)
    requires UniqueTelegramIds(users)
    requires FindByTelegramId(users, telegramId) == Some(e)
    ensures FindByTelegramId(UpdateNames(users, telegramId, username, firstName, lastName), telegramId)
            == Some(e.(username := username, firstName := firstName, lastName := lastName))
  {
    var r := UpdateNames(users, telegramId, username, firstName, lastName);
    var i :| 0 <= i < |users| && users[i] == e;
    assert r[i].telegramId == telegramId && r[i] in r;
    var f := FindByTelegramId(r, telegramId).value;
    var j :| 0 <= j < |r| && r[j] == f;
    assert users[j].telegramId == telegramId;
    OnlyRow(users, telegramId, j);
  }

  /** An update to the names the row already has changes nothing. */
  lemma UpdateUnchanged(users: seq<User>, telegramId: int, e: User)
    requires UniqueTelegramIds(users)
    requires FindByTelegramId(users, telegramId) == Some(e)
    ensures UpdateNames(users, telegramId, e.username, e.firstName, e.lastName) == users
  {
    var r := UpdateNames(users, telegramId, e.username, e.firstName, e.lastName);
    forall k | 0 <= k < |r| ensures r[k] == users[k] {
      if users[k].telegramId == telegramId {
        OnlyRow(users, telegramId, k);
      }
    }
  }

  /** Inserting a user whose telegram id is new keeps the constraints and finds the new row. */
  lemma InsertKeepsValid(users: seq<User>, messages: seq<Message>, nextUserId: nat, nextMessageId: nat, u: User)
    requires ValidTables(users, messages, nextUserId, nextMessageId)
    requires FindByTelegramId(users, u.telegramId).None? && u.id == nextUserId
    ensures ValidTables(users + [u], messages, nextUserId + 1, nextMessageId)
    ensures FindByTelegramId(users + [u], u.telegramId) == Some(u)
  {
    var r := users + [u];
    var f := FindByTelegramId(r, u.telegramId);
    assert u in r;
    var j :| 0 <= j < |r| && r[j] == f.value;
    forall t | HasUser(users, t) ensures HasUser(r, t) {
      var v :| v in users && v.telegramId == t;
      assert v in r;
    }
  }
}
