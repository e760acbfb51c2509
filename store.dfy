/**
 * The entities of the game backend, the database tables that hold them, and
 * the lookups the services run against those tables.
 *
 * The services never keep state of their own: everything they change lives
 * in the repositories. The repositories are modelled as one `Database` object
 * with a sequence per table; `Tables` is the same state as a value, so that
 * every operation can be specified by a function from the old state to the
 * new one.
 */
module Store {

  datatype Option<T> = None | Some(value: T)

  /** What a NotFound exception says is missing. */
  datatype Missing = MissingUser | MissingTask | MissingItem

  /** The HTTP exceptions the services throw. */
  datatype Error =
    | NotFound(what: Missing)
    | Conflict
    | BadRequest
    | InternalServerError

  datatype Result<T> = Ok(value: T) | Err(error: Error)

  type Id = nat

  /** Milliseconds since the epoch, the unit of `Date.getTime()` and `Date.now()`. */
  type Millis = int

  function Min(a: int, b: int): int { if a <= b then a else b }
  function Max(a: int, b: int): int { if a >= b then a else b }

  /** A row of the user table (the inventory relation is the `inventory` table). */
  datatype User = User(
    id: Id,
    walletAddress: string,
    username: string,
    energyCurrent: int,
    energyMax: int,
    gameCoins: int,
    level: int,
    levelInd: int,
    score: int,
    equippedSkin: Option<Id>)

  /** A row of an append-only history table; `createdAt` is set by the database on insert. */
  datatype Entry<V> = Entry(userId: Id, value: V, createdAt: Millis)

  /** ECaseType, in the order of the CASE_CHANCES table. */
  datatype CaseType =
    | Energy10 | Energy30 | Energy50
    | Coins100 | Coins250 | Coins500
    | GoldMask | GoldMaskRepeat

  /** The payload of a case-history row. */
  datatype CaseOpening = CaseOpening(caseType: CaseType, isDaily: bool)

  /** The payload of a game-history row. */
  datatype GamePlay = GamePlay(score: int, level: int, levelInd: int, gameCoins: int)

  datatype Item = Item(id: Id, name: string, price: int)

  datatype InventoryRow = InventoryRow(userId: Id, itemId: Id)

  /** EValueType: the kind of a task's reward. */
  datatype ValueType = EnergyReward | CoinsReward

  datatype Task = Task(id: Id, condition: string, value: int, valueType: ValueType)

  /** A task-completion row. */
  datatype UserTask = UserTask(userId: Id, taskId: Id)

  /** The whole database as a value. */
  datatype Tables = Tables(
    users: seq<User>,
    items: seq<Item>,
    inventory: seq<InventoryRow>,
    coinHistory: seq<Entry<real>>,
    energyHistory: seq<Entry<real>>,
    caseHistory: seq<Entry<CaseOpening>>,
    gameHistory: seq<Entry<GamePlay>>,
    tasks: seq<Task>,
    userTasks: seq<UserTask>)

  /** The state after an operation together with what it returned or threw. */
  datatype Outcome<T> = Outcome(db: Tables, result: Result<T>)

  /**
   * What the outside world answers during one request: the token and SOL
   * balances of the wallet, the clock, and the start of the local day.
   */
  datatype Env = Env(tokenBalance: real, solBalance: real, now: Millis, startOfDay: Millis)

  /** The index of the first element of `s` that satisfies `p` (a `findOne`). */
  function FindFirst<T>(s: seq<T>, p: T -> bool): (r: Option<nat>)
    ensures r.Some? ==> r.value < |s| && p(s[r.value])
    ensures r.Some? ==> forall j :: 0 <= j < r.value ==> !p(s[j])
    ensures r.None? <==> forall j :: 0 <= j < |s| ==> !p(s[j])
  {
    if |s| == 0 then None
    else if p(s[0]) then Some(0)
    else match FindFirst(s[1..], p)
      case None => None
      case Some(k) => Some(k + 1)
  }

  /** The index of the last element of `s` that satisfies `p`. */
  function FindLast<T>(s: seq<T>, p: T -> bool): (r: Option<nat>)
    ensures r.Some? ==> r.value < |s| && p(s[r.value])
    ensures r.Some? ==> forall j :: r.value < j < |s| ==> !p(s[j])
    ensures r.None? <==> forall j :: 0 <= j < |s| ==> !p(s[j])
  {
    if |s| == 0 then None
    else if p(s[|s| - 1]) then Some(|s| - 1)
    else FindLast(s[..|s| - 1], p)
  }

  /** The number of elements of `s` that satisfy `p` (a `count`). */
  function Count<T>(s: seq<T>, p: T -> bool): (n: nat)
    ensures n <= |s|
    ensures n == 0 <==> forall j :: 0 <= j < |s| ==> !p(s[j])
  {
    if |s| == 0 then 0
    else (if p(s[0]) then 1 else 0) + Count(s[1..], p)
  }

  lemma {:induction false} CountAppend<T>(s: seq<T>, x: T, p: T -> bool)
    ensures Count(s + [x], p) == Count(s, p) + (if p(x) then 1 else 0)
  {
    if |s| > 0 {
      assert (s + [x])[1..] == s[1..] + [x];
      CountAppend(s[1..], x, p);
    }
  }

  /** The latest history row of a user: `find({ where: { userId }, order: { createdAt: 'DESC' }, take: 1 })`. */
  function Latest<V>(h: seq<Entry<V>>, userId: Id): (r: Option<Entry<V>>)
    ensures r.Some? ==> r.value in h && r.value.userId == userId
    ensures r.None? <==> forall j :: 0 <= j < |h| ==> h[j].userId != userId
  {
    match FindLast(h, (e: Entry<V>) => e.userId == userId)
    case None => None
    case Some(k) => Some(h[k])
  }

  lemma LatestAfterAppend<V>(h: seq<Entry<V>>, e: Entry<V>, userId: Id)
    ensures Latest(h + [e], userId) == if e.userId == userId then Some(e) else Latest(h, userId)
  {
    var p := (x: Entry<V>) => x.userId == userId;
    assert (h + [e])[..|h + [e]| - 1] == h;
  }

  function UserById(users: seq<User>, id: Id): Option<nat>
  {
    FindFirst(users, (u: User) => u.id == id)
  }

  function UserByWallet(users: seq<User>, wallet: string): Option<nat>
  {
    FindFirst(users, (u: User) => u.walletAddress == wallet)
  }

  /**
   * `userRepo.save(user)`: the row with the user's id is overwritten by the
   * whole record, or the record is inserted when there is no such row.
   */
  function Save(users: seq<User>, u: User): (r: seq<User>)
    ensures UserById(users, u.id).Some? ==> r == users[UserById(users, u.id).value := u]
    ensures UserById(users, u.id).None? ==> r == users + [u]
  {
    match UserById(users, u.id)
    case Some(i) => users[i := u]
    case None => users + [u]
  }

  /** After a save the record is in the table, at most one row was added, and no row with another id changed. */
  lemma SaveWrites(users: seq<User>, u: User)
    ensures u in Save(users, u) && |users| <= |Save(users, u)| <= |users| + 1
    ensures forall k :: 0 <= k < |users| && users[k].id != u.id ==> Save(users, u)[k] == users[k]
  {
    match UserById(users, u.id)
    case Some(i) => assert Save(users, u)[i] == u;
    case None => assert Save(users, u)[|users|] == u;
  }

  /** Saving a record over the row its id is found at keeps that row the one found. */
  lemma SaveAtFound(users: seq<User>, i: nat, u: User)
    requires UserById(users, u.id) == Some(i)
    ensures i < |users| && Save(users, u) == users[i := u]
    ensures UserById(Save(users, u), u.id) == Some(i)
  {
    var after := users[i := u];
    assert after[i].id == u.id;
    assert forall j :: 0 <= j < i ==> after[j].id == users[j].id;
  }

  /** Whether a completion row for the user and the task exists. */
  predicate Completed(userTasks: seq<UserTask>, userId: Id, taskId: Id)
  {
    UserTask(userId, taskId) in userTasks
  }

  /** Whether the user owns the item, through the inventory relation. */
  predicate Owns(inventory: seq<InventoryRow>, userId: Id, itemId: Id)
  {
    InventoryRow(userId, itemId) in inventory
  }

  /** The primary key of the user table: no two rows share an id. */
  ghost predicate UniqueIds(users: seq<User>)
  {
    forall i, j :: 0 <= i < j < |users| ==> users[i].id != users[j].id
  }

  lemma UserByIdOfRow(users: seq<User>, i: nat)
    requires UniqueIds(users) && i < |users|
    ensures UserById(users, users[i].id) == Some(i)
  {
  }

  /** At most one completion row per (user, task). */
  ghost predicate UniqueCompletions(userTasks: seq<UserTask>)
  {
    forall i, j :: 0 <= i < j < |userTasks| ==> userTasks[i] != userTasks[j]
  }

  /**
   * The user rows keep their ids and wallets in place: only the other
   * columns of existing rows change, and rows may be added at the end.
   */
  ghost predicate UsersKept(before: seq<User>, after: seq<User>)
  {
    |before| <= |after| &&
    forall i :: 0 <= i < |before| ==>
      after[i].id == before[i].id && after[i].walletAddress == before[i].walletAddress
  }

  /** The game-progress columns stay in place: every existing row keeps its level and level index. */
  ghost predicate LevelsKept(before: seq<User>, after: seq<User>)
  {
    |before| <= |after| &&
    forall i :: 0 <= i < |before| ==>
      after[i].level == before[i].level && after[i].levelInd == before[i].levelInd
  }

  lemma UsersKeptLookups(before: seq<User>, after: seq<User>, id: Id, wallet: string)
    requires UsersKept(before, after)
    ensures UserById(before, id).Some? ==> UserById(after, id) == UserById(before, id)
    ensures UserByWallet(before, wallet).Some? ==> UserByWallet(after, wallet) == UserByWallet(before, wallet)
  {
    var r := UserById(before, id);
    if r.Some? {
      var r' := UserById(after, id);
      assert after[r.value].id == id;
      assert forall j :: 0 <= j < r.value ==> after[j].id == before[j].id;
    }
    var w := UserByWallet(before, wallet);
    if w.Some? {
      assert after[w.value].walletAddress == wallet;
      assert forall j :: 0 <= j < w.value ==> after[j].walletAddress == before[j].walletAddress;
    }
  }

  lemma UsersKeptTransitive(a: seq<User>, b: seq<User>, c: seq<User>)
    requires UsersKept(a, b) && UsersKept(b, c)
    ensures UsersKept(a, c)
  {
  }

  /** Saving a record whose id and wallet are those of the row it replaces keeps the rows in place. */
  lemma SaveKeepsUsers(users: seq<User>, i: nat, u: User)
    requires i < |users| && UserById(users, u.id) == Some(i)
    requires u.walletAddress == users[i].walletAddress
    ensures UsersKept(users, Save(users, u))
    ensures |Save(users, u)| == |users|
  {
  }

  /** The repositories: one sequence per table, changed in place by the services. */
  class Database {
    var users: seq<User>
    var items: seq<Item>
    var inventory: seq<InventoryRow>
    var coinHistory: seq<Entry<real>>
    var energyHistory: seq<Entry<real>>
    var caseHistory: seq<Entry<CaseOpening>>
    var gameHistory: seq<Entry<GamePlay>>
    var tasks: seq<Task>
    var userTasks: seq<UserTask>

    function State(): Tables
      reads this
    {
      Tables(users, items, inventory, coinHistory, energyHistory, caseHistory,
             gameHistory, tasks, userTasks)
    }
  }
}
