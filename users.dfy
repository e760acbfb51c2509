/**
 * The small user operations: registration, starting a game, buying and
 * equipping items, and recording a finished game (which runs the
 * games-played task ladder).
 */
module Users {
  import opened Store
  import opened Views
  import opened Reconciliation
  import opened Tasks

  /** The item every new user receives: the default skin. */
  const DEFAULT_SKIN_ID: Id := 1

  /** No two users share a wallet. */
  ghost predicate UniqueWallets(users: seq<User>)
  {
    forall i, j :: 0 <= i < j < |users| ==> users[i].walletAddress != users[j].walletAddress
  }

  function UserByName(users: seq<User>, username: string): Option<nat>
  {
    FindFirst(users, (u: User) => u.username == username)
  }

  function ItemByName(items: seq<Item>, name: string): Option<nat>
  {
    FindFirst(items, (x: Item) => x.name == name)
  }

  function ItemById(items: seq<Item>, id: Id): Option<nat>
  {
    FindFirst(items, (x: Item) => x.id == id)
  }

  /** The id the user table hands out next: above every id in use. */
  function NextId(users: seq<User>): (id: Id)
    ensures id > 0
    ensures forall k :: 0 <= k < |users| ==> users[k].id < id
  {
    if |users| == 0 then 1 else Max(users[0].id + 1, NextId(users[1..]))
  }

  /** A freshly inserted user row: the given wallet and name, every counter at its default. */
  function NewUser(id: Id, walletAddress: string, username: string): User
  {
    User(id, walletAddress, username, 0, 0, 0, 0, 0, 0, None)
  }

  /**
   * createUser: Conflict when the wallet or the name is taken (the wallet
   * is checked first); otherwise a new row and its default-skin inventory row.
   */
  function CreateUserSpec(t: Tables, walletAddress: string, username: string): (o: Outcome<User>)
    ensures o.result.Err? <==> UserByWallet(t.users, walletAddress).Some? || UserByName(t.users, username).Some?
    ensures o.result.Err? ==> o == Outcome(t, Err(Conflict))
    ensures o.result.Ok? ==>
      var u := o.result.value;
      u.walletAddress == walletAddress && u.username == username &&
      (forall k :: 0 <= k < |t.users| ==> t.users[k].id != u.id) &&
      o.db == t.(users := t.users + [u], inventory := t.inventory + [InventoryRow(u.id, DEFAULT_SKIN_ID)])
  {
    if UserByWallet(t.users, walletAddress).Some? then Outcome(t, Err(Conflict))
    else if UserByName(t.users, username).Some? then Outcome(t, Err(Conflict))
    else
      var u := NewUser(NextId(t.users), walletAddress, username);
      Outcome(t.(users := t.users + [u], inventory := t.inventory + [InventoryRow(u.id, DEFAULT_SKIN_ID)]), Ok(u))
  }

  /** Registration keeps ids and wallets unique, and the new user owns the default skin. */
  lemma CreateUserKeepsKeys(t: Tables, walletAddress: string, username: string)
    requires UniqueIds(t.users) && UniqueWallets(t.users)
    ensures var o := CreateUserSpec(t, walletAddress, username);
      UniqueIds(o.db.users) && UniqueWallets(o.db.users) &&
      (o.result.Ok? ==> Owns(o.db.inventory, o.result.value.id, DEFAULT_SKIN_ID) &&
                        UserByWallet(o.db.users, walletAddress) == Some(|t.users|))
  {
    var o := CreateUserSpec(t, walletAddress, username);
    if o.result.Ok? {
      assert forall k :: 0 <= k < |t.users| ==> t.users[k].walletAddress != walletAddress;
      assert o.db.users[|t.users|].walletAddress == walletAddress;
      assert forall k :: 0 <= k < |t.users| ==> o.db.users[k] == t.users[k];
    }
  }

  /** What startGame answers. */
  datatype GameStart = GameStart(success: bool, user: User)

  /** startGame: one energy is spent when there is at least one; otherwise nothing changes. */
  function StartGameSpec(t: Tables, walletAddress: string): (o: Outcome<GameStart>)
    ensures o.result.Err? <==> UserByWallet(t.users, walletAddress).None?
    ensures o.result.Err? ==> o == Outcome(t, Err(NotFound(MissingUser)))
    ensures o.result.Ok? ==>
      var i := UserByWallet(t.users, walletAddress).value;
      var u := t.users[i];
      (o.result.value.success <==> u.energyCurrent >= 1) &&
      (o.result.value.success ==>
        o.result.value.user == u.(energyCurrent := u.energyCurrent - 1) &&
        o.db == t.(users := Save(t.users, o.result.value.user))) &&
      (!o.result.value.success ==> o.result.value.user == u && o.db == t)
  {
    match UserByWallet(t.users, walletAddress)
    case None => Outcome(t, Err(NotFound(MissingUser)))
    case Some(i) =>
      var u := t.users[i];
      if u.energyCurrent >= 1 then
        var spent := u.(energyCurrent := u.energyCurrent - 1);
        Outcome(t.(users := Save(t.users, spent)), Ok(GameStart(true, spent)))
      else Outcome(t, Ok(GameStart(false, u)))
  }

  /** A started game leaves the user's row one energy lower and every other row as it was. */
  lemma StartGameSpendsOne(t: Tables, walletAddress: string)
    requires UniqueIds(t.users)
    ensures var o := StartGameSpec(t, walletAddress);
      o.result.Ok? ==>
        var i := UserByWallet(t.users, walletAddress).value;
        o.db.users[i].energyCurrent == t.users[i].energyCurrent - (if o.result.value.success then 1 else 0) &&
        (t.users[i].energyCurrent >= 0 ==> o.db.users[i].energyCurrent >= 0)
  {
    match UserByWallet(t.users, walletAddress)
    case None =>
    case Some(i) =>
      UserByIdOfRow(t.users, i);
  }

  /** The first inventory row of the user whose item exists and has the given name. */
  function InventorySkin(t: Tables, userId: Id, skinName: string): Option<nat>
  {
    FindFirst(t.inventory, (row: InventoryRow) =>
      row.userId == userId &&
      match ItemById(t.items, row.itemId)
      case None => false
      case Some(k) => t.items[k].name == skinName)
  }

  /** equipSkin: NotFound for a missing user, BadRequest for a skin the user does not own; otherwise the skin is worn. */
  function EquipSkinSpec(t: Tables, walletAddress: string, skinName: string, env: Env): (o: Outcome<UserView>)
    ensures o.result.Err? ==> o.db == t
    ensures o.result == Err(NotFound(MissingUser)) <==> UserByWallet(t.users, walletAddress).None?
    ensures o.result == Err(BadRequest) <==>
      UserByWallet(t.users, walletAddress).Some? &&
      InventorySkin(t, t.users[UserByWallet(t.users, walletAddress).value].id, skinName).None?
    ensures o.result.Ok? ==>
      var u := o.result.value.user;
      u.equippedSkin.Some? && Owns(t.inventory, u.id, u.equippedSkin.value) &&
      ItemById(t.items, u.equippedSkin.value).Some? &&
      t.items[ItemById(t.items, u.equippedSkin.value).value].name == skinName &&
      u == t.users[UserByWallet(t.users, walletAddress).value].(equippedSkin := u.equippedSkin) &&
      o.db == t.(users := Save(t.users, u))
  {
    match UserByWallet(t.users, walletAddress)
    case None => Outcome(t, Err(NotFound(MissingUser)))
    case Some(i) =>
      var u := t.users[i];
      match InventorySkin(t, u.id, skinName)
      case None => Outcome(t, Err(BadRequest))
      case Some(row) =>
        var worn := u.(equippedSkin := Some(t.inventory[row].itemId));
        var t' := t.(users := Save(t.users, worn));
        Outcome(t', Ok(Enrich(worn, t', env)))
  }

  /** `userRepo.update(id, { gameCoins })`: only the coin column of the row with the id changes. */
  function UpdateCoins(users: seq<User>, id: Id, gameCoins: int): (r: seq<User>)
    ensures |r| == |users|
    ensures forall k :: 0 <= k < |users| && users[k].id != id ==> r[k] == users[k]
    ensures UserById(users, id).Some? ==>
      r[UserById(users, id).value] == users[UserById(users, id).value].(gameCoins := gameCoins)
    ensures UserById(users, id).None? ==> r == users
  {
    match UserById(users, id)
    case None => users
    case Some(j) => users[j := users[j].(gameCoins := gameCoins)]
  }

  lemma UpdateCoinsKeepsLookup(users: seq<User>, id: Id, gameCoins: int)
    requires UserById(users, id).Some?
    ensures UserById(UpdateCoins(users, id, gameCoins), id) == UserById(users, id)
  {
    var j := UserById(users, id).value;
    var after := users[j := users[j].(gameCoins := gameCoins)];
    assert after[j].id == id;
    assert forall k :: 0 <= k < j ==> after[k].id == users[k].id;
  }

  /**
   * buyItem: NotFound for a missing user or item, BadRequest when the coins
   * do not cover the price, Conflict when the item is already owned;
   * otherwise one inventory row and the price debited.
   */
  function BuyItemSpec(t: Tables, walletAddress: string, itemName: string, env: Env): (o: Outcome<UserView>)
    ensures o.result.Err? ==> o.db == t
    ensures o.result == Err(NotFound(MissingUser)) <==> UserByWallet(t.users, walletAddress).None?
    ensures o.result == Err(NotFound(MissingItem)) <==>
      UserByWallet(t.users, walletAddress).Some? && ItemByName(t.items, itemName).None?
  {
    match UserByWallet(t.users, walletAddress)
    case None => Outcome(t, Err(NotFound(MissingUser)))
    case Some(i) =>
      var u := t.users[i];
      match ItemByName(t.items, itemName)
      case None => Outcome(t, Err(NotFound(MissingItem)))
      case Some(k) =>
        var item := t.items[k];
        if u.gameCoins < item.price then Outcome(t, Err(BadRequest))
        else if Owns(t.inventory, u.id, item.id) then Outcome(t, Err(Conflict))
        else Purchased(t, u, item, env)
  }

  /** The writes of a purchase that passed every check, and the reloaded buyer. */
  function Purchased(t: Tables, u: User, item: Item, env: Env): (o: Outcome<UserView>)
    requires UserById(t.users, u.id).Some?
    ensures o.result.Ok?
    ensures o.db == t.(inventory := t.inventory + [InventoryRow(u.id, item.id)],
                       users := UpdateCoins(t.users, u.id, u.gameCoins - item.price))
  {
    var t' := t.(inventory := t.inventory + [InventoryRow(u.id, item.id)],
                 users := UpdateCoins(t.users, u.id, u.gameCoins - item.price));
    UpdateCoinsKeepsLookup(t.users, u.id, u.gameCoins - item.price);
    match UserById(t'.users, u.id)
    case None => Outcome(t', Err(NotFound(MissingUser)))
    case Some(j) => Outcome(t', Ok(Enrich(t'.users[j], t', env)))
  }

  /**
   * A purchase that succeeds adds exactly the one inventory row, debits
   * exactly the price from the buyer's row and changes no other row; each
   * refusal says why: coins below the price, or the item already owned.
   */
  lemma BuyItemOutcome(t: Tables, walletAddress: string, itemName: string, env: Env)
    requires UniqueIds(t.users)
    requires UserByWallet(t.users, walletAddress).Some? && ItemByName(t.items, itemName).Some?
    ensures var i := UserByWallet(t.users, walletAddress).value;
      var u := t.users[i];
      var item := t.items[ItemByName(t.items, itemName).value];
      var o := BuyItemSpec(t, walletAddress, itemName, env);
      (o.result == Err(BadRequest) <==> u.gameCoins < item.price) &&
      (o.result == Err(Conflict) <==> u.gameCoins >= item.price && Owns(t.inventory, u.id, item.id)) &&
      (o.result.Ok? <==> u.gameCoins >= item.price && !Owns(t.inventory, u.id, item.id)) &&
      (o.result.Ok? ==>
        o.db == t.(inventory := t.inventory + [InventoryRow(u.id, item.id)],
                   users := t.users[i := u.(gameCoins := u.gameCoins - item.price)]) &&
        o.result.value.user == u.(gameCoins := u.gameCoins - item.price) &&
        Owns(o.db.inventory, u.id, item.id) && (u.gameCoins >= 0 ==> o.db.users[i].gameCoins >= 0))
  {
    var i := UserByWallet(t.users, walletAddress).value;
    var u := t.users[i];
    UserByIdOfRow(t.users, i);
    var after := t.users[i := u.(gameCoins := u.gameCoins - t.items[ItemByName(t.items, itemName).value].price)];
    assert UpdateCoins(t.users, u.id, u.gameCoins - t.items[ItemByName(t.items, itemName).value].price) == after;
    assert after[i].id == u.id;
    assert forall j :: 0 <= j < i ==> after[j].id == t.users[j].id;
  }

  /** updateScore's input: the coins, level and level index the game ended with. */
  datatype ScoreUpdate = ScoreUpdate(newGem: int, level: int, levelInd: int)

  /** The tables after updateScore's own writes: the game-history row, then the user. */
  function Scored(t: Tables, u: User, data: ScoreUpdate, now: Millis): Tables
  {
    var played := u.(gameCoins := data.newGem, level := data.level, levelInd := data.levelInd);
    t.(gameHistory := t.gameHistory + [Entry(u.id, GamePlay(u.score, data.level, data.levelInd, data.newGem), now)],
       users := Save(t.users, played))
  }

  /**
   * updateScore: the game-history row (with the stored score, which the
   * update does not change), the new coins and level, then the games-played
   * ladder for the new count; the saved user is the answer.
   */
  function UpdateScoreSpec(t: Tables, walletAddress: string, data: ScoreUpdate, env: Env): (o: Outcome<User>)
    requires UniqueIds(t.users)
    ensures o.result.Err? <==> UserByWallet(t.users, walletAddress).None?
    ensures o.result.Err? ==> o == Outcome(t, Err(NotFound(MissingUser)))
    ensures o.result.Ok? ==>
      var u := t.users[UserByWallet(t.users, walletAddress).value];
      o.result.value == u.(gameCoins := data.newGem, level := data.level, levelInd := data.levelInd)
  {
    match UserByWallet(t.users, walletAddress)
    case None => Outcome(t, Err(NotFound(MissingUser)))
    case Some(i) =>
      var u := t.users[i];
      var t1 := Scored(t, u, data, env.now);
      ScoredKeepsUsers(t, i, data, env.now);
      var ladder := RunLadder(t1, u.id, Due(GamesLadder, GamesCount(t1.gameHistory, u.id)), env);
      RunLadderSettles(t1, u.id, Due(GamesLadder, GamesCount(t1.gameHistory, u.id)), env);
      Outcome(ladder.db, Ok(t1.users[i]))
  }

  lemma ScoredKeepsUsers(t: Tables, i: nat, data: ScoreUpdate, now: Millis)
    requires UniqueIds(t.users) && i < |t.users|
    ensures var t1 := Scored(t, t.users[i], data, now);
      UniqueIds(t1.users) && UsersKept(t.users, t1.users) && UserById(t1.users, t.users[i].id) == Some(i) &&
      t1.users[i] == t.users[i].(gameCoins := data.newGem, level := data.level, levelInd := data.levelInd)
  {
    var u := t.users[i];
    UserByIdOfRow(t.users, i);
    SaveKeepsUsers(t.users, i, u.(gameCoins := data.newGem, level := data.level, levelInd := data.levelInd));
    SaveAtFound(t.users, i, u.(gameCoins := data.newGem, level := data.level, levelInd := data.levelInd));
  }

  /**
   * A recorded game appends exactly one game-history row (the user, the
   * stored score, the new level, level index and coins, and the clock), so
   * the user's games count rises by exactly one. The stored user keeps the
   * new level and level index through the ladder, and afterwards every
   * ladder condition the new count reaches is settled.
   */
  lemma UpdateScoreCountsTheGame(t: Tables, walletAddress: string, data: ScoreUpdate, env: Env)
    requires UniqueIds(t.users) && UserByWallet(t.users, walletAddress).Some?
    ensures var i := UserByWallet(t.users, walletAddress).value;
      var u := t.users[i];
      var o := UpdateScoreSpec(t, walletAddress, data, env);
      o.db.gameHistory == t.gameHistory + [Entry(u.id, GamePlay(u.score, data.level, data.levelInd, data.newGem), env.now)] &&
      i < |o.db.users| && o.db.users[i].level == data.level && o.db.users[i].levelInd == data.levelInd &&
      GamesCount(o.db.gameHistory, u.id) == GamesCount(t.gameHistory, u.id) + 1 &&
      forall c :: c in Due(GamesLadder, GamesCount(t.gameHistory, u.id) + 1) ==> ConditionSettled(o.db, u.id, c)
  {
    var i := UserByWallet(t.users, walletAddress).value;
    var u := t.users[i];
    var t1 := Scored(t, u, data, env.now);
    ScoredKeepsUsers(t, i, data, env.now);
    GamesCountAfterPlay(t.gameHistory, Entry(u.id, GamePlay(u.score, data.level, data.levelInd, data.newGem), env.now), u.id);
    RunLadderSettles(t1, u.id, Due(GamesLadder, GamesCount(t1.gameHistory, u.id)), env);
    RunLadderKeepsGames(t1, u.id, Due(GamesLadder, GamesCount(t1.gameHistory, u.id)), env);
    RunLadderKeepsLevels(t1, u.id, Due(GamesLadder, GamesCount(t1.gameHistory, u.id)), env);
  }

  /** The ladder writes no game-history row. */
  lemma {:induction false} RunLadderKeepsGames(t: Tables, userId: Id, conditions: seq<string>, env: Env)
    requires UniqueIds(t.users)
    ensures RunLadder(t, userId, conditions, env).db.gameHistory == t.gameHistory
    decreases |conditions|
  {
    if |conditions| > 0 {
      var o := CompleteByConditionSpec(t, userId, conditions[0], env);
      assert o.db.gameHistory == t.gameHistory by {
        match TaskByCondition(t.tasks, conditions[0])
        case None =>
        case Some(k) =>
          match UserById(t.users, userId)
          case None =>
          case Some(i) =>
            if !Completed(t.userTasks, userId, t.tasks[k].id) {
              ExecuteTaskFacts(t, i, t.tasks[k], env);
            }
      }
      if o.result.Ok? {
        RunLadderKeepsGames(o.db, userId, conditions[1..], env);
      }
    }
  }

  /** createUser, in place. */
  method CreateUser(db: Database, walletAddress: string, username: string) returns (r: Result<User>)
    modifies db
    ensures Outcome(db.State(), r) == CreateUserSpec(old(db.State()), walletAddress, username)
  {
    if UserByWallet(db.users, walletAddress).Some? {
      return Err(Conflict);
    }
    if UserByName(db.users, username).Some? {
      return Err(Conflict);
    }
    var user := NewUser(NextId(db.users), walletAddress, username);
    db.users := db.users + [user];
    db.inventory := db.inventory + [InventoryRow(user.id, DEFAULT_SKIN_ID)];
    r := Ok(user);
  }

  /** startGame, in place. */
  method StartGame(db: Database, walletAddress: string) returns (r: Result<GameStart>)
    modifies db
    ensures Outcome(db.State(), r) == StartGameSpec(old(db.State()), walletAddress)
  {
    var i := UserByWallet(db.users, walletAddress);
    if i.None? {
      return Err(NotFound(MissingUser));
    }
    var user := db.users[i.value];
    if user.energyCurrent >= 1 {
      user := user.(energyCurrent := user.energyCurrent - 1);
      db.users := Save(db.users, user);
      return Ok(GameStart(true, user));
    }
    return Ok(GameStart(false, user));
  }

  /** equipSkin, in place. */
  method EquipSkin(db: Database, walletAddress: string, skinName: string, env: Env) returns (r: Result<UserView>)
    modifies db
    ensures Outcome(db.State(), r) == EquipSkinSpec(old(db.State()), walletAddress, skinName, env)
  {
    var i := UserByWallet(db.users, walletAddress);
    if i.None? {
      return Err(NotFound(MissingUser));
    }
    var user := db.users[i.value];
    var row := InventorySkin(db.State(), user.id, skinName);
    if row.None? {
      return Err(BadRequest);
    }
    user := user.(equippedSkin := Some(db.inventory[row.value].itemId));
    db.users := Save(db.users, user);
    r := Ok(Enrich(user, db.State(), env));
  }

  /** buyItem, in place. */
  method BuyItem(db: Database, walletAddress: string, itemName: string, env: Env) returns (r: Result<UserView>)
    modifies db
    ensures Outcome(db.State(), r) == BuyItemSpec(old(db.State()), walletAddress, itemName, env)
  {
    var i := UserByWallet(db.users, walletAddress);
    if i.None? {
      return Err(NotFound(MissingUser));
    }
    var user := db.users[i.value];
    var k := ItemByName(db.items, itemName);
    if k.None? {
      return Err(NotFound(MissingItem));
    }
    var item := db.items[k.value];
    if user.gameCoins < item.price {
      return Err(BadRequest);
    }
    if Owns(db.inventory, user.id, item.id) {
      return Err(Conflict);
    }
    r := Purchase(db, user, item, env);
  }

  /** The writes of buyItem once every check has passed. */
  method Purchase(db: Database, user: User, item: Item, env: Env) returns (r: Result<UserView>)
    requires UserById(db.users, user.id).Some?
    modifies db`inventory, db`users
    ensures Outcome(db.State(), r) == Purchased(old(db.State()), user, item, env)
  {
    ghost var t0 := db.State();
    UpdateCoinsKeepsLookup(db.users, user.id, user.gameCoins - item.price);
    db.inventory := db.inventory + [InventoryRow(user.id, item.id)];
    db.users := UpdateCoins(db.users, user.id, user.gameCoins - item.price);
    assert db.State() == t0.(inventory := t0.inventory + [InventoryRow(user.id, item.id)],
                             users := UpdateCoins(t0.users, user.id, user.gameCoins - item.price));
    var j := UserById(db.users, user.id);
    r := Ok(Enrich(db.users[j.value], db.State(), env));
    PurchasedAt(t0, user, item, env, db.State(), j.value);
  }

  lemma PurchasedAt(t: Tables, u: User, item: Item, env: Env, t': Tables, j: nat)
    requires UserById(t.users, u.id).Some?
    requires t' == t.(inventory := t.inventory + [InventoryRow(u.id, item.id)],
                      users := UpdateCoins(t.users, u.id, u.gameCoins - item.price))
    requires UserById(t'.users, u.id) == Some(j)
    ensures Purchased(t, u, item, env) == Outcome(t', Ok(Enrich(t'.users[j], t', env)))
  {
  }

  /** updateScore, in place. */
  method UpdateScore(db: Database, walletAddress: string, data: ScoreUpdate, env: Env) returns (r: Result<User>)
    requires UniqueIds(db.users)
    modifies db
    ensures Outcome(db.State(), r) == UpdateScoreSpec(old(db.State()), walletAddress, data, env)
  {
    var i := UserByWallet(db.users, walletAddress);
    if i.None? {
      return Err(NotFound(MissingUser));
    }
    var user := db.users[i.value];
    ghost var t0 := db.State();
    ScoredKeepsUsers(t0, i.value, data, env.now);
    user := user.(gameCoins := data.newGem, level := data.level, levelInd := data.levelInd);
    db.gameHistory := db.gameHistory + [Entry(user.id, GamePlay(user.score, data.level, data.levelInd, data.newGem), env.now)];
    db.users := Save(db.users, user);
    assert db.State() == Scored(t0, t0.users[i.value], data, env.now);
    var gamesCount := GamesCount(db.gameHistory, user.id);
    var done := CheckAndCompleteGamesTasks(db, user.id, gamesCount, env);
    RunLadderSettles(Scored(t0, t0.users[i.value], data, env.now), user.id, Due(GamesLadder, gamesCount), env);
    r := Ok(user);
  }
}
