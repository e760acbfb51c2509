/**
 * Task rewards: the task list with its `completed` flags, the explicit and
 * the condition-triggered completion, the reward, and the games-played
 * ladder. Every completion ends in a balance reconciliation of the user's
 * wallet, whose answer is what the caller receives.
 */
module Tasks {
  import opened Store
  import opened Views
  import opened Reconciliation

  /** A task as `findAll` lists it. */
  datatype TaskView = TaskView(task: Task, completed: bool)

  /** `userId ? … : …`: an absent id and the id 0 are both falsy. */
  predicate Truthy(userId: Option<Id>)
  {
    userId.Some? && userId.value != 0
  }

  /** The completion rows of one user (`userTaskRepo.find({ where: { userId } })`). */
  function UserTasksOf(userTasks: seq<UserTask>, userId: Id): (r: seq<UserTask>)
    ensures forall ut :: ut in r <==> ut in userTasks && ut.userId == userId
  {
    if |userTasks| == 0 then []
    else (if userTasks[0].userId == userId then [userTasks[0]] else []) + UserTasksOf(userTasks[1..], userId)
  }

  /** `userTasks.some(userTask => userTask.taskId === taskId)`. */
  function AnyForTask(userTasks: seq<UserTask>, taskId: Id): (b: bool)
    ensures b <==> exists ut :: ut in userTasks && ut.taskId == taskId
  {
    if |userTasks| == 0 then false
    else userTasks[0].taskId == taskId || AnyForTask(userTasks[1..], taskId)
  }

  /** findAll: every task once, in order, flagged completed when the user has a completion row for it. */
  function FindAll(tasks: seq<Task>, userTasks: seq<UserTask>, userId: Option<Id>): (r: seq<TaskView>)
    ensures |r| == |tasks|
    ensures forall k :: 0 <= k < |r| ==> r[k].task == tasks[k]
    ensures forall k :: 0 <= k < |r| ==>
      (r[k].completed <==> Truthy(userId) && Completed(userTasks, userId.value, tasks[k].id))
  {
    var mine := if Truthy(userId) then UserTasksOf(userTasks, userId.value) else [];
    seq(|tasks|, k requires 0 <= k < |tasks| => TaskView(tasks[k], AnyForTask(mine, tasks[k].id)))
  }

  function TaskById(tasks: seq<Task>, id: Id): Option<nat>
  {
    FindFirst(tasks, (x: Task) => x.id == id)
  }

  function TaskByCondition(tasks: seq<Task>, condition: string): Option<nat>
  {
    FindFirst(tasks, (x: Task) => x.condition == condition)
  }

  /**
   * The reward of executeTask. Energy is raised by the value but never above
   * the user's ceiling or MAX_ENERGY, so a user already above the ceiling
   * is brought down to it; coins are raised by the value. A value of 0 or
   * less grants nothing.
   */
  function Reward(u: User, task: Task): (r: User)
    ensures task.value <= 0 ==> r == u
    ensures r.id == u.id && r.walletAddress == u.walletAddress
    ensures task.value > 0 && task.valueType == EnergyReward ==>
      r == u.(energyCurrent := r.energyCurrent) &&
      r.energyCurrent <= u.energyCurrent + task.value &&
      r.energyCurrent <= u.energyMax && r.energyCurrent <= MAX_ENERGY &&
      (r.energyCurrent == u.energyCurrent + task.value || r.energyCurrent == u.energyMax || r.energyCurrent == MAX_ENERGY)
    ensures task.value > 0 && task.valueType == CoinsReward ==>
      r == u.(gameCoins := u.gameCoins + task.value)
  {
    if task.value > 0 then
      match task.valueType
      case EnergyReward => u.(energyCurrent := Min(Min(u.energyCurrent + task.value, u.energyMax), MAX_ENERGY))
      case CoinsReward => u.(gameCoins := u.gameCoins + task.value)
    else u
  }

  /** An energy reward can lower energy: 300 energy over a ceiling of 80 becomes 80 after a reward of 10. */
  lemma EnergyRewardCanLower(u: User, id: Id)
    requires u.energyCurrent == 300 && u.energyMax == 80
    ensures Reward(u, Task(id, "", 10, EnergyReward)).energyCurrent == 80
  {
  }

  /** The tables after executeTask's own writes: the completion row, then the rewarded user. */
  function Rewarded(t: Tables, u: User, task: Task): Tables
  {
    var t1 := t.(userTasks := t.userTasks + [UserTask(u.id, task.id)]);
    if task.value > 0 then t1.(users := Save(t1.users, Reward(u, task))) else t1
  }

  /** executeTask: the completion row, the reward, and then the reconciliation of the user's wallet. */
  function ExecuteTaskSpec(t: Tables, u: User, task: Task, env: Env): (o: Outcome<UserView>)
    ensures o.db.userTasks == t.userTasks + [UserTask(u.id, task.id)]
    ensures o.db.tasks == t.tasks && o.db.items == t.items && o.db.inventory == t.inventory
    ensures o.db.caseHistory == t.caseHistory && o.db.gameHistory == t.gameHistory
    ensures o.result.Ok? ==> o.result.value.user.energyMax == EnergyForSolBalance(env.solBalance)
  {
    ReconcileSpec(Rewarded(t, u, task), u.walletAddress, env)
  }

  /**
   * executeTask on a stored user appends exactly one completion row, keeps
   * the user rows in place and the primary key intact, and, with the wallet
   * balances supplied in `env`, always answers.
   */
  lemma ExecuteTaskFacts(t: Tables, i: nat, task: Task, env: Env)
    requires UniqueIds(t.users) && i < |t.users|
    ensures var o := ExecuteTaskSpec(t, t.users[i], task, env);
      o.result.Ok? &&
      o.db.userTasks == t.userTasks + [UserTask(t.users[i].id, task.id)] &&
      o.db.tasks == t.tasks &&
      UsersKept(t.users, o.db.users) && UniqueIds(o.db.users)
  {
    var u := t.users[i];
    var t2 := Rewarded(t, u, task);
    assert UsersKept(t.users, t2.users) && UniqueIds(t2.users) && t2.users[i].walletAddress == u.walletAddress by {
      if task.value > 0 {
        UserByIdOfRow(t.users, i);
        SaveKeepsUsers(t.users, i, Reward(u, task));
      }
    }
    assert UserByWallet(t2.users, u.walletAddress).Some?;
    ReconcileKeepsUsers(t2, u.walletAddress, env);
    UsersKeptTransitive(t.users, t2.users, ReconcileSpec(t2, u.walletAddress, env).db.users);
  }

  /** executeTask on a stored user changes no row's level or level index. */
  lemma ExecuteTaskKeepsLevels(t: Tables, i: nat, task: Task, env: Env)
    requires UniqueIds(t.users) && i < |t.users|
    ensures LevelsKept(t.users, ExecuteTaskSpec(t, t.users[i], task, env).db.users)
  {
    var u := t.users[i];
    var t2 := Rewarded(t, u, task);
    RewardedKeepsLevels(t, i, task);
    ReconcileKeepsLevels(t2, u.walletAddress, env);
  }

  /** The reward changes no row's level or level index and keeps the key unique. */
  lemma RewardedKeepsLevels(t: Tables, i: nat, task: Task)
    requires UniqueIds(t.users) && i < |t.users|
    ensures var t2 := Rewarded(t, t.users[i], task);
      LevelsKept(t.users, t2.users) && UniqueIds(t2.users)
  {
    if task.value > 0 {
      UserByIdOfRow(t.users, i);
      SaveAtFound(t.users, i, Reward(t.users[i], task));
      SaveKeepsUsers(t.users, i, Reward(t.users[i], task));
    }
  }

  /** A reconciliation changes no row's level or level index. */
  lemma ReconcileKeepsLevels(t: Tables, wallet: string, env: Env)
    requires UniqueIds(t.users)
    ensures LevelsKept(t.users, ReconcileSpec(t, wallet, env).db.users)
  {
    ReconcileKeepsUsers(t, wallet, env);
    match UserByWallet(t.users, wallet)
    case None =>
    case Some(j) =>
      var w := t.users[j];
      var rec := ReconcileUser(w, Latest(t.coinHistory, w.id), Latest(t.energyHistory, w.id), env);
      assert ReconcileSpec(t, wallet, env).result.value.user == rec.user;
  }

  /**
   * The task's own energy reward does not reach the caller when the user
   * has no energy snapshot yet: the reconciliation that follows sets the
   * energy to the tier of the SOL balance, whatever the reward made it.
   */
  lemma FirstReconcileOverridesEnergyReward(t: Tables, i: nat, task: Task, env: Env)
    requires UniqueIds(t.users) && i < |t.users|
    requires UserByWallet(t.users, t.users[i].walletAddress) == Some(i)
    requires Latest(t.energyHistory, t.users[i].id).None?
    ensures var o := ExecuteTaskSpec(t, t.users[i], task, env);
      o.result.Ok? && o.result.value.user.energyCurrent == EnergyForSolBalance(env.solBalance)
  {
    var u := t.users[i];
    var t2 := Rewarded(t, u, task);
    assert UserByWallet(t2.users, u.walletAddress) == Some(i) && t2.users[i].id == u.id by {
      if task.value > 0 {
        UserByIdOfRow(t.users, i);
        SaveKeepsUsers(t.users, i, Reward(u, task));
        UsersKeptLookups(t.users, t2.users, 0, u.walletAddress);
      }
    }
    ReconcileSpecAt(t2, u.walletAddress, env, i);
  }

  /**
   * completeTask: NotFound for a missing task (checked first), for a falsy
   * user id and for a missing user; Conflict when the user already completed
   * the task; otherwise executeTask.
   */
  function CompleteTaskSpec(t: Tables, userId: Id, taskId: Id, env: Env): (o: Outcome<UserView>)
    requires UniqueIds(t.users)
    ensures o.result == Err(NotFound(MissingTask)) <==> TaskById(t.tasks, taskId).None?
    ensures o.result == Err(NotFound(MissingUser)) <==>
      TaskById(t.tasks, taskId).Some? && (userId == 0 || UserById(t.users, userId).None?)
    ensures o.result == Err(Conflict) <==>
      TaskById(t.tasks, taskId).Some? && userId != 0 && UserById(t.users, userId).Some? &&
      Completed(t.userTasks, userId, taskId)
    ensures o.result.Err? ==> o.db == t
    ensures o.result.Ok? ==> o.db.userTasks == t.userTasks + [UserTask(userId, taskId)]
  {
    match TaskById(t.tasks, taskId)
    case None => Outcome(t, Err(NotFound(MissingTask)))
    case Some(k) =>
      if userId == 0 then Outcome(t, Err(NotFound(MissingUser)))
      else match UserById(t.users, userId)
        case None => Outcome(t, Err(NotFound(MissingUser)))
        case Some(i) =>
          if Completed(t.userTasks, userId, taskId) then Outcome(t, Err(Conflict))
          else
            ExecuteTaskFacts(t, i, t.tasks[k], env);
            ExecuteTaskSpec(t, t.users[i], t.tasks[k], env)
  }

  /**
   * completeTaskByCondition: nothing (`null`) when no task has the condition
   * or the user already completed it; NotFound for a missing user, which is
   * checked between the two; otherwise executeTask.
   */
  function CompleteByConditionSpec(t: Tables, userId: Id, condition: string, env: Env): (o: Outcome<Option<UserView>>)
    requires UniqueIds(t.users)
    ensures o.result == Err(NotFound(MissingUser)) <==>
      TaskByCondition(t.tasks, condition).Some? && UserById(t.users, userId).None?
    ensures o.result == Ok(None) <==>
      TaskByCondition(t.tasks, condition).None? ||
      (UserById(t.users, userId).Some? && Completed(t.userTasks, userId, t.tasks[TaskByCondition(t.tasks, condition).value].id))
    ensures o.result.Err? || o.result == Ok(None) ==> o.db == t
    ensures o.result.Ok? && o.result.value.Some? ==>
      o.db.userTasks == t.userTasks + [UserTask(userId, t.tasks[TaskByCondition(t.tasks, condition).value].id)]
    ensures o.db.tasks == t.tasks && UsersKept(t.users, o.db.users) && UniqueIds(o.db.users)
  {
    match TaskByCondition(t.tasks, condition)
    case None => Outcome(t, Ok(None))
    case Some(k) =>
      match UserById(t.users, userId)
      case None => Outcome(t, Err(NotFound(MissingUser)))
      case Some(i) =>
        if Completed(t.userTasks, userId, t.tasks[k].id) then Outcome(t, Ok(None))
        else
          ExecuteTaskFacts(t, i, t.tasks[k], env);
          var o := ExecuteTaskSpec(t, t.users[i], t.tasks[k], env);
          Outcome(o.db, Ok(Some(o.result.value)))
  }

  /** Neither completion path ever writes a second completion row for a (user, task) pair. */
  lemma CompletionsStayUnique(t: Tables, userId: Id, taskId: Id, condition: string, env: Env)
    requires UniqueIds(t.users) && UniqueCompletions(t.userTasks)
    ensures UniqueCompletions(CompleteTaskSpec(t, userId, taskId, env).db.userTasks)
    ensures UniqueCompletions(CompleteByConditionSpec(t, userId, condition, env).db.userTasks)
  {
    assert UniqueCompletions(CompleteTaskSpec(t, userId, taskId, env).db.userTasks) by {
      var o := CompleteTaskSpec(t, userId, taskId, env);
      if o.result.Ok? {
        assert !Completed(t.userTasks, userId, taskId);
        AppendKeepsUnique(t.userTasks, UserTask(userId, taskId));
      }
    }
    var p := CompleteByConditionSpec(t, userId, condition, env);
    if p.result.Ok? && p.result.value.Some? {
      var k := TaskByCondition(t.tasks, condition).value;
      assert !Completed(t.userTasks, userId, t.tasks[k].id);
      AppendKeepsUnique(t.userTasks, UserTask(userId, t.tasks[k].id));
    }
  }

  lemma AppendKeepsUnique(userTasks: seq<UserTask>, row: UserTask)
    requires UniqueCompletions(userTasks) && row !in userTasks
    ensures UniqueCompletions(userTasks + [row])
  {
  }

  /** A second explicit completion of the same task by the same user is a Conflict. */
  lemma SecondCompletionConflicts(t: Tables, userId: Id, taskId: Id, env: Env, env2: Env)
    requires UniqueIds(t.users)
    requires CompleteTaskSpec(t, userId, taskId, env).result.Ok?
    ensures var o := CompleteTaskSpec(t, userId, taskId, env);
      UniqueIds(o.db.users) && CompleteTaskSpec(o.db, userId, taskId, env2).result == Err(Conflict)
  {
    var o := CompleteTaskSpec(t, userId, taskId, env);
    var k := TaskById(t.tasks, taskId).value;
    var i := UserById(t.users, userId).value;
    ExecuteTaskFacts(t, i, t.tasks[k], env);
    UsersKeptLookups(t.users, o.db.users, userId, "");
    assert UserTask(userId, taskId) in o.db.userTasks;
  }

  /** A second condition completion by the same user writes nothing and answers nothing. */
  lemma SecondConditionCompletionIsNoop(t: Tables, userId: Id, condition: string, env: Env, env2: Env)
    requires UniqueIds(t.users)
    requires CompleteByConditionSpec(t, userId, condition, env).result.Ok?
    ensures var o := CompleteByConditionSpec(t, userId, condition, env);
      CompleteByConditionSpec(o.db, userId, condition, env2) == Outcome(o.db, Ok(None))
  {
    var o := CompleteByConditionSpec(t, userId, condition, env);
    match TaskByCondition(t.tasks, condition)
    case None =>
    case Some(k) =>
      var i := UserById(t.users, userId).value;
      UsersKeptLookups(t.users, o.db.users, userId, "");
      assert UserTask(userId, t.tasks[k].id) in o.db.userTasks;
  }

  /** The games-played ladder of checkAndCompleteGamesTasks: condition keys and thresholds, in order. */
  const GamesLadder: seq<(string, int)> := [
    ("firstgame", 1), ("tengames", 10), ("fiftygames", 50),
    ("hundredgames", 100), ("threehundredgames", 300), ("fivehundredgames", 500)]

  /** The conditions of a ladder whose threshold the count reaches, in ladder order. */
  function Due(ladder: seq<(string, int)>, gamesCount: int): (r: seq<string>)
    ensures |r| <= |ladder|
    ensures forall c :: c in r <==> exists k :: 0 <= k < |ladder| && ladder[k].0 == c && ladder[k].1 <= gamesCount
  {
    if |ladder| == 0 then []
    else (if ladder[0].1 <= gamesCount then [ladder[0].0] else []) + Due(ladder[1..], gamesCount)
  }

  /** With 12 games the ladder attempts the first two conditions. */
  lemma DueAfterTwelveGames()
    ensures Due(GamesLadder, 12) == ["firstgame", "tengames"]
  {
  }

  /** The condition completions one after another; the first NotFound stops the run and is passed on. */
  function RunLadder(t: Tables, userId: Id, conditions: seq<string>, env: Env): (o: Outcome<()>)
    requires UniqueIds(t.users)
    ensures o.db.tasks == t.tasks && UsersKept(t.users, o.db.users) && UniqueIds(o.db.users)
    ensures o.result.Err? <==> exists k :: 0 <= k < |conditions| && TaskByCondition(t.tasks, conditions[k]).Some? && UserById(t.users, userId).None?
    decreases |conditions|
  {
    if |conditions| == 0 then Outcome(t, Ok(()))
    else
      var o := CompleteByConditionSpec(t, userId, conditions[0], env);
      if o.result.Err? then Outcome(o.db, Err(o.result.error))
      else
        UsersKeptLookups(t.users, o.db.users, userId, "");
        RunLadder(o.db, userId, conditions[1..], env)
  }

  /** Whether a condition needs no further completion: no task has it, or the user completed that task. */
  predicate ConditionSettled(t: Tables, userId: Id, condition: string)
  {
    match TaskByCondition(t.tasks, condition)
    case None => true
    case Some(k) => Completed(t.userTasks, userId, t.tasks[k].id)
  }

  /** One condition completion for an existing user succeeds, settles the condition and unsettles nothing. */
  lemma ConditionStep(t: Tables, userId: Id, condition: string, env: Env)
    requires UniqueIds(t.users) && UserById(t.users, userId).Some?
    ensures var o := CompleteByConditionSpec(t, userId, condition, env);
      o.result.Ok? && UserById(o.db.users, userId).Some? && UniqueIds(o.db.users) &&
      ConditionSettled(o.db, userId, condition) &&
      (forall c :: ConditionSettled(t, userId, c) ==> ConditionSettled(o.db, userId, c))
  {
    var o := CompleteByConditionSpec(t, userId, condition, env);
    UsersKeptLookups(t.users, o.db.users, userId, "");
    assert forall ut :: ut in t.userTasks ==> ut in o.db.userTasks;
  }

  /** After a run for an existing user, every condition it was given is settled. */
  lemma {:induction false} RunLadderSettles(t: Tables, userId: Id, conditions: seq<string>, env: Env)
    requires UniqueIds(t.users) && UserById(t.users, userId).Some?
    ensures var o := RunLadder(t, userId, conditions, env);
      o.result.Ok? && UserById(o.db.users, userId).Some? &&
      (forall c :: c in conditions ==> ConditionSettled(o.db, userId, c)) &&
      (forall c :: ConditionSettled(t, userId, c) ==> ConditionSettled(o.db, userId, c))
    decreases |conditions|
  {
    if |conditions| > 0 {
      var o := CompleteByConditionSpec(t, userId, conditions[0], env);
      ConditionStep(t, userId, conditions[0], env);
      RunLadderSettles(o.db, userId, conditions[1..], env);
      assert forall c :: c in conditions ==> c == conditions[0] || c in conditions[1..];
    }
  }

  /** A run of the ladder changes no row's level or level index. */
  lemma {:induction false} RunLadderKeepsLevels(t: Tables, userId: Id, conditions: seq<string>, env: Env)
    requires UniqueIds(t.users)
    ensures LevelsKept(t.users, RunLadder(t, userId, conditions, env).db.users)
    decreases |conditions|
  {
    if |conditions| > 0 {
      var o := CompleteByConditionSpec(t, userId, conditions[0], env);
      assert LevelsKept(t.users, o.db.users) by {
        match TaskByCondition(t.tasks, conditions[0])
        case None =>
        case Some(k) =>
          match UserById(t.users, userId)
          case None =>
          case Some(i) =>
            if !Completed(t.userTasks, userId, t.tasks[k].id) {
              ExecuteTaskKeepsLevels(t, i, t.tasks[k], env);
            }
      }
      if o.result.Ok? {
        RunLadderKeepsLevels(o.db, userId, conditions[1..], env);
      }
    }
  }

  /** A run over settled conditions writes nothing. */
  lemma {:induction false} RunLadderSettledIsNoop(t: Tables, userId: Id, conditions: seq<string>, env: Env)
    requires UniqueIds(t.users) && UserById(t.users, userId).Some?
    requires forall c :: c in conditions ==> ConditionSettled(t, userId, c)
    ensures RunLadder(t, userId, conditions, env) == Outcome(t, Ok(()))
    decreases |conditions|
  {
    if |conditions| > 0 {
      assert ConditionSettled(t, userId, conditions[0]);
      assert CompleteByConditionSpec(t, userId, conditions[0], env) == Outcome(t, Ok(None));
      RunLadderSettledIsNoop(t, userId, conditions[1..], env);
    }
  }

  /** Running the ladder a second time with the same count adds no completion and writes nothing. */
  lemma LadderTwiceIsNoop(t: Tables, userId: Id, gamesCount: int, env: Env, env2: Env)
    requires UniqueIds(t.users) && UserById(t.users, userId).Some?
    ensures var o := RunLadder(t, userId, Due(GamesLadder, gamesCount), env);
      RunLadder(o.db, userId, Due(GamesLadder, gamesCount), env2) == Outcome(o.db, Ok(()))
  {
    RunLadderSettles(t, userId, Due(GamesLadder, gamesCount), env);
    var o := RunLadder(t, userId, Due(GamesLadder, gamesCount), env);
    RunLadderSettledIsNoop(o.db, userId, Due(GamesLadder, gamesCount), env2);
  }

  /** executeTask, in place. */
  method ExecuteTask(db: Database, user: User, task: Task, env: Env) returns (r: Result<UserView>)
    modifies db
    ensures Outcome(db.State(), r) == ExecuteTaskSpec(old(db.State()), user, task, env)
  {
    db.userTasks := db.userTasks + [UserTask(user.id, task.id)];
    var u := user;
    if task.value > 0 {
      if task.valueType == EnergyReward {
        u := u.(energyCurrent := Min(Min(u.energyCurrent + task.value, u.energyMax), MAX_ENERGY));
        db.users := Save(db.users, u);
      }
      if task.valueType == CoinsReward {
        u := u.(gameCoins := u.gameCoins + task.value);
        db.users := Save(db.users, u);
      }
    }
    assert db.State() == Rewarded(old(db.State()), user, task);
    r := SetEnergyAndCoins(db, u.walletAddress, env);
  }

  /** completeTask, in place. */
  method CompleteTask(db: Database, userId: Id, taskId: Id, env: Env) returns (r: Result<UserView>)
    requires UniqueIds(db.users)
    modifies db
    ensures Outcome(db.State(), r) == CompleteTaskSpec(old(db.State()), userId, taskId, env)
  {
    var k := TaskById(db.tasks, taskId);
    if k.None? {
      return Err(NotFound(MissingTask));
    }
    var task := db.tasks[k.value];
    if userId == 0 {
      return Err(NotFound(MissingUser));
    }
    var i := UserById(db.users, userId);
    if i.None? {
      return Err(NotFound(MissingUser));
    }
    var user := db.users[i.value];
    if Completed(db.userTasks, userId, taskId) {
      return Err(Conflict);
    }
    r := ExecuteTask(db, user, task, env);
  }

  /** completeTaskByCondition, in place. */
  method CompleteTaskByCondition(db: Database, userId: Id, condition: string, env: Env) returns (r: Result<Option<UserView>>)
    requires UniqueIds(db.users)
    modifies db
    ensures Outcome(db.State(), r) == CompleteByConditionSpec(old(db.State()), userId, condition, env)
  {
    var k := TaskByCondition(db.tasks, condition);
    if k.None? {
      return Ok(None);
    }
    var task := db.tasks[k.value];
    var i := UserById(db.users, userId);
    if i.None? {
      return Err(NotFound(MissingUser));
    }
    var user := db.users[i.value];
    if Completed(db.userTasks, userId, task.id) {
      return Ok(None);
    }
    ExecuteTaskFacts(db.State(), i.value, task, env);
    var v := ExecuteTask(db, user, task, env);
    r := Ok(Some(v.value));
  }

  /** A run over a condition followed by more: the first completion, then the rest unless it failed. */
  lemma RunLadderCons(t: Tables, userId: Id, condition: string, rest: seq<string>, env: Env)
    requires UniqueIds(t.users)
    ensures var o := CompleteByConditionSpec(t, userId, condition, env);
      RunLadder(t, userId, [condition] + rest, env) ==
        if o.result.Err? then Outcome(o.db, Err(o.result.error)) else RunLadder(o.db, userId, rest, env)
  {
    assert ([condition] + rest)[1..] == rest;
  }

  /** The due conditions of a ladder suffix: its first rung, if reached, then the rest. */
  lemma DueStep(ladder: seq<(string, int)>, k: nat, gamesCount: int)
    requires k < |ladder|
    ensures Due(ladder[k..], gamesCount) ==
      (if ladder[k].1 <= gamesCount then [ladder[k].0] else []) + Due(ladder[k + 1..], gamesCount)
  {
    assert ladder[k..][1..] == ladder[k + 1..];
  }

  /** checkAndCompleteGamesTasks: every condition whose threshold the count reaches, in ladder order. */
  method CheckAndCompleteGamesTasks(db: Database, userId: Id, gamesCount: int, env: Env) returns (r: Result<()>)
    requires UniqueIds(db.users)
    modifies db
    ensures Outcome(db.State(), r) == RunLadder(old(db.State()), userId, Due(GamesLadder, gamesCount), env)
  {
    ghost var goal := RunLadder(db.State(), userId, Due(GamesLadder, gamesCount), env);
    assert GamesLadder[0..] == GamesLadder;
    var k := 0;
    while k < |GamesLadder|
      invariant 0 <= k <= |GamesLadder|
      invariant UniqueIds(db.users)
      invariant goal == RunLadder(db.State(), userId, Due(GamesLadder[k..], gamesCount), env)
    {
      var (condition, requiredGames) := GamesLadder[k];
      ghost var rest := Due(GamesLadder[k + 1..], gamesCount);
      DueStep(GamesLadder, k, gamesCount);
      if gamesCount >= requiredGames {
        ghost var before := db.State();
        assert goal == RunLadder(before, userId, [condition] + rest, env);
        RunLadderCons(before, userId, condition, rest, env);
        var done := CompleteTaskByCondition(db, userId, condition, env);
        if done.Err? {
          return Err(done.error);
        }
      } else {
        assert [] + rest == rest;
      }
      k := k + 1;
    }
    r := Ok(());
  }
}
