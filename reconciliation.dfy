/**
 * Balance reconciliation (`setEnergyAndCoins`): the wallet's token balance
 * is compared with the user's last coin snapshot and its SOL balance with the
 * last energy snapshot, and coins, energy and the energy ceiling are adjusted.
 */
module Reconciliation {
  import opened Store
  import opened Views

  const COINS_PER_TOKEN: int := 100
  const MAX_ENERGY: int := 500
  /** The staleness window after which a snapshot is re-baselined: 30 days. */
  const MONTH_MS: int := 30 * 24 * 60 * 60 * 1000

  /** getEnergyForSolBalance: the energy tier of a SOL balance. */
  function EnergyForSolBalance(solBalance: real): (e: int)
    ensures e == 80 || e == 160 || e == 240
  {
    if solBalance >= 1.0 then 240
    else if solBalance >= 0.1 then 160
    else if solBalance >= 0.01 then 80
    else 80
  }

  lemma EnergyForSolBalanceMonotone(a: real, b: real)
    requires a <= b
    ensures EnergyForSolBalance(a) <= EnergyForSolBalance(b)
  {
  }

  lemma EnergyForSolBalanceBelowTenth(solBalance: real)
    requires solBalance < 0.1
    ensures EnergyForSolBalance(solBalance) == 80
  {
  }

  /**
   * A balance that did not rise is written as a new baseline only when it
   * differs from the snapshot and the snapshot is more than 30 days old.
   */
  predicate Rebaseline(last: Entry<real>, observed: real, now: Millis)
  {
    last.value != observed && last.createdAt + MONTH_MS < now
  }

  /** One side of a reconciliation: the new value and whether a snapshot of the observed balance is appended. */
  datatype Step = Step(value: int, snapshot: bool)

  /** The coin side of `setEnergyAndCoins`. */
  function CoinStep(gameCoins: int, last: Option<Entry<real>>, tokenBalance: real, now: Millis): (s: Step)
    ensures s.value >= gameCoins
    ensures last.None? ==> s == Step(gameCoins, false)
    ensures last.Some? && last.value.value < tokenBalance ==>
      s.snapshot && s.value - gameCoins == (tokenBalance - last.value.value).Floor * COINS_PER_TOKEN
    ensures last.Some? && tokenBalance <= last.value.value ==>
      s.value == gameCoins && (s.snapshot <==> Rebaseline(last.value, tokenBalance, now))
  {
    match last
    case None => Step(gameCoins, false)
    case Some(row) =>
      if row.value < tokenBalance then
        Step(gameCoins + (tokenBalance - row.value).Floor * COINS_PER_TOKEN, true)
      else
        Step(gameCoins, row.value != tokenBalance && row.createdAt + MONTH_MS < now)
  }

  /** The energy side of `setEnergyAndCoins`, before the shrink correction. */
  function EnergyStep(energyCurrent: int, last: Option<Entry<real>>, solBalance: real, now: Millis): (s: Step)
    ensures last.None? ==> s == Step(Min(EnergyForSolBalance(solBalance), MAX_ENERGY), true)
    ensures last.Some? && last.value.value < solBalance ==>
      s.snapshot &&
      s.value == (if EnergyForSolBalance(solBalance) > EnergyForSolBalance(last.value.value)
                  then Min(energyCurrent + EnergyForSolBalance(solBalance) - EnergyForSolBalance(last.value.value), MAX_ENERGY)
                  else energyCurrent)
    ensures last.Some? && solBalance <= last.value.value ==>
      s.value == energyCurrent && (s.snapshot <==> Rebaseline(last.value, solBalance, now))
  {
    var tier := EnergyForSolBalance(solBalance);
    match last
    case None => Step(Min(tier, MAX_ENERGY), true)
    case Some(row) =>
      if row.value < solBalance then
        var increase := tier - EnergyForSolBalance(row.value);
        Step(if increase > 0 then Min(energyCurrent + increase, MAX_ENERGY) else energyCurrent, true)
      else
        Step(energyCurrent, row.value != solBalance && row.createdAt + MONTH_MS < now)
  }

  /**
   * The correction applied when the stored ceiling is above the new tier:
   * the tier plus whatever the user held above it, capped at MAX_ENERGY.
   */
  function ShrinkCorrection(storedMax: int, energyCurrent: int, tier: int): (r: int)
    ensures storedMax > tier ==> r == Min(Max(energyCurrent, tier), MAX_ENERGY)
    ensures storedMax <= tier ==> r == energyCurrent
  {
    if storedMax > tier then
      var additional := if energyCurrent > tier then energyCurrent - tier else 0;
      var current := tier + additional;
      if current > MAX_ENERGY then MAX_ENERGY else current
    else energyCurrent
  }

  /** The user after a reconciliation, and which snapshots are appended. */
  datatype Reconciled = Reconciled(user: User, coinSnapshot: bool, energySnapshot: bool)

  function ReconcileUser(u: User, coinLast: Option<Entry<real>>, energyLast: Option<Entry<real>>, env: Env): (r: Reconciled)
    ensures r.user == u.(gameCoins := r.user.gameCoins, energyCurrent := r.user.energyCurrent, energyMax := r.user.energyMax)
    ensures r.user.energyMax == EnergyForSolBalance(env.solBalance)
    ensures r.user.gameCoins >= u.gameCoins
    ensures coinLast.None? ==> r.user.gameCoins == u.gameCoins && !r.coinSnapshot
    ensures energyLast.None? ==> r.energySnapshot && r.user.energyCurrent == r.user.energyMax
    ensures r.user.energyCurrent <= Max(u.energyCurrent, MAX_ENERGY)
    ensures energyLast.Some? && u.energyCurrent <= MAX_ENERGY ==> r.user.energyCurrent >= u.energyCurrent
  {
    var c := CoinStep(u.gameCoins, coinLast, env.tokenBalance, env.now);
    var e := EnergyStep(u.energyCurrent, energyLast, env.solBalance, env.now);
    var tier := EnergyForSolBalance(env.solBalance);
    Reconciled(
      u.(gameCoins := c.value,
         energyCurrent := ShrinkCorrection(u.energyMax, e.value, tier),
         energyMax := tier),
      c.snapshot, e.snapshot)
  }

  /** setEnergyAndCoins over the whole database. */
  function ReconcileSpec(t: Tables, wallet: string, env: Env): (o: Outcome<UserView>)
    ensures o.result.Err? <==> UserByWallet(t.users, wallet).None?
    ensures o.result.Err? ==> o == Outcome(t, Err(NotFound(MissingUser)))
    ensures o.db.items == t.items && o.db.inventory == t.inventory && o.db.caseHistory == t.caseHistory
    ensures o.db.gameHistory == t.gameHistory && o.db.tasks == t.tasks && o.db.userTasks == t.userTasks
  {
    match UserByWallet(t.users, wallet)
    case None => Outcome(t, Err(NotFound(MissingUser)))
    case Some(i) =>
      var u := t.users[i];
      var rec := ReconcileUser(u, Latest(t.coinHistory, u.id), Latest(t.energyHistory, u.id), env);
      var t' := t.(
        users := Save(t.users, rec.user),
        coinHistory := t.coinHistory + (if rec.coinSnapshot then [Entry(u.id, env.tokenBalance, env.now)] else []),
        energyHistory := t.energyHistory + (if rec.energySnapshot then [Entry(u.id, env.solBalance, env.now)] else []));
      Outcome(t', Ok(Enrich(rec.user, t', env)))
  }

  /** The row a reconciliation finds by wallet keeps its place; no other row changes. */
  lemma ReconcileKeepsUsers(t: Tables, wallet: string, env: Env)
    requires UniqueIds(t.users)
    ensures var o := ReconcileSpec(t, wallet, env);
      UsersKept(t.users, o.db.users) && |o.db.users| == |t.users| && UniqueIds(o.db.users)
    ensures var o := ReconcileSpec(t, wallet, env);
      o.result.Ok? ==>
        var i := UserByWallet(t.users, wallet).value;
        o.result.value.user == o.db.users[i] &&
        forall j :: 0 <= j < |t.users| && j != i ==> o.db.users[j] == t.users[j]
  {
    match UserByWallet(t.users, wallet)
    case None =>
    case Some(i) =>
      UserByIdOfRow(t.users, i);
  }

  /**
   * Reconciling a user a second time with the same balances at the same
   * moment changes nothing: the first call left snapshots equal to the
   * observed balances (or none, on the coin side, when there was none) and
   * a ceiling equal to the tier.
   */
  lemma ReconcileUserIdempotent(u: User, coinLast: Option<Entry<real>>, energyLast: Option<Entry<real>>, env: Env)
    ensures var rec := ReconcileUser(u, coinLast, energyLast, env);
      var coinLast' := if rec.coinSnapshot then Some(Entry(u.id, env.tokenBalance, env.now)) else coinLast;
      var energyLast' := if rec.energySnapshot then Some(Entry(u.id, env.solBalance, env.now)) else energyLast;
      ReconcileUser(rec.user, coinLast', energyLast', env) == Reconciled(rec.user, false, false)
  {
    var rec := ReconcileUser(u, coinLast, energyLast, env);
    var tier := EnergyForSolBalance(env.solBalance);
    var c := CoinStep(u.gameCoins, coinLast, env.tokenBalance, env.now);
    var e := EnergyStep(u.energyCurrent, energyLast, env.solBalance, env.now);
    var coinLast' := if rec.coinSnapshot then Some(Entry(u.id, env.tokenBalance, env.now)) else coinLast;
    var energyLast' := if rec.energySnapshot then Some(Entry(u.id, env.solBalance, env.now)) else energyLast;
    var c2 := CoinStep(rec.user.gameCoins, coinLast', env.tokenBalance, env.now);
    assert c2 == Step(rec.user.gameCoins, false);
    var e2 := EnergyStep(rec.user.energyCurrent, energyLast', env.solBalance, env.now);
    assert e2 == Step(rec.user.energyCurrent, false);
    assert ShrinkCorrection(rec.user.energyMax, e2.value, tier) == rec.user.energyCurrent;
  }

  /** ReconcileSpec for a wallet that belongs to row `i`, spelled out. */
  lemma ReconcileSpecAt(t: Tables, wallet: string, env: Env, i: nat)
    requires UserByWallet(t.users, wallet) == Some(i)
    ensures i < |t.users|
    ensures var u := t.users[i];
      var rec := ReconcileUser(u, Latest(t.coinHistory, u.id), Latest(t.energyHistory, u.id), env);
      var t' := t.(
        users := Save(t.users, rec.user),
        coinHistory := t.coinHistory + (if rec.coinSnapshot then [Entry(u.id, env.tokenBalance, env.now)] else []),
        energyHistory := t.energyHistory + (if rec.energySnapshot then [Entry(u.id, env.solBalance, env.now)] else []));
      ReconcileSpec(t, wallet, env) == Outcome(t', Ok(Enrich(rec.user, t', env)))
  {
  }

  /** After a reconciliation of row `i`, its latest snapshots are the ones just written, if any. */
  lemma LatestAfterReconcile(t: Tables, wallet: string, env: Env, i: nat)
    requires UserByWallet(t.users, wallet) == Some(i)
    ensures i < |t.users|
    ensures var u := t.users[i];
      var rec := ReconcileUser(u, Latest(t.coinHistory, u.id), Latest(t.energyHistory, u.id), env);
      var o := ReconcileSpec(t, wallet, env);
      Latest(o.db.coinHistory, u.id) ==
        (if rec.coinSnapshot then Some(Entry(u.id, env.tokenBalance, env.now)) else Latest(t.coinHistory, u.id)) &&
      Latest(o.db.energyHistory, u.id) ==
        (if rec.energySnapshot then Some(Entry(u.id, env.solBalance, env.now)) else Latest(t.energyHistory, u.id))
  {
    ReconcileSpecAt(t, wallet, env, i);
    var u := t.users[i];
    LatestAfterAppend(t.coinHistory, Entry(u.id, env.tokenBalance, env.now), u.id);
    LatestAfterAppend(t.energyHistory, Entry(u.id, env.solBalance, env.now), u.id);
    assert t.coinHistory + [] == t.coinHistory;
    assert t.energyHistory + [] == t.energyHistory;
  }

  /** A reconciliation that finds nothing to change writes nothing and returns the stored row. */
  lemma ReconcileNoop(t: Tables, wallet: string, env: Env, i: nat)
    requires UniqueIds(t.users)
    requires UserByWallet(t.users, wallet) == Some(i)
    requires i < |t.users|
    requires ReconcileUser(t.users[i], Latest(t.coinHistory, t.users[i].id), Latest(t.energyHistory, t.users[i].id), env)
      == Reconciled(t.users[i], false, false)
    ensures ReconcileSpec(t, wallet, env) == Outcome(t, Ok(Enrich(t.users[i], t, env)))
  {
    ReconcileSpecAt(t, wallet, env, i);
    UserByIdOfRow(t.users, i);
    assert t.users[i := t.users[i]] == t.users;
    assert t.(users := t.users, coinHistory := t.coinHistory + [], energyHistory := t.energyHistory + []) == t;
  }

  /** The same over the whole database: a second reconciliation with the same answers is a no-op. */
  lemma ReconcileIdempotent(t: Tables, wallet: string, env: Env)
    requires UniqueIds(t.users)
    ensures var o := ReconcileSpec(t, wallet, env);
      ReconcileSpec(o.db, wallet, env) == o
  {
    var o := ReconcileSpec(t, wallet, env);
    match UserByWallet(t.users, wallet)
    case None =>
    case Some(i) =>
      var u := t.users[i];
      var rec := ReconcileUser(u, Latest(t.coinHistory, u.id), Latest(t.energyHistory, u.id), env);
      var t1 := o.db;
      assert i < |t1.users| && t1.users[i] == rec.user && UserByWallet(t1.users, wallet) == Some(i) &&
          UniqueIds(t1.users) && t1.users[i].id == u.id && o.result == Ok(Enrich(rec.user, t1, env)) by {
        ReconcileSpecAt(t, wallet, env, i);
        ReconcileKeepsUsers(t, wallet, env);
        UsersKeptLookups(t.users, t1.users, 0, wallet);
      }
      assert ReconcileUser(t1.users[i], Latest(t1.coinHistory, u.id), Latest(t1.energyHistory, u.id), env)
          == Reconciled(rec.user, false, false) by {
        LatestAfterReconcile(t, wallet, env, i);
        ReconcileUserIdempotent(u, Latest(t.coinHistory, u.id), Latest(t.energyHistory, u.id), env);
      }
      ReconcileNoop(t1, wallet, env, i);
  }

  /**
   * Cycling the token balance within 30 days grants once: after a rise from
   * b0 to b1 the snapshot holds b1, a fall back writes nothing while the
   * snapshot is fresh, and a second rise to at most b1 grants nothing.
   */
  lemma NoCoinFarmingWithinMonth(coins: Id, userId: Id, b0: real, b1: real, low: real, b2: real, t0: Millis, t1: Millis, t2: Millis, t3: Millis)
    requires b0 < b1 && low < b1 && b2 <= b1 && t2 <= t1 + MONTH_MS && t3 <= t1 + MONTH_MS
    ensures var up := CoinStep(coins, Some(Entry(userId, b0, t0)), b1, t1);
      var snapshot := Entry(userId, b1, t1);
      var down := CoinStep(up.value, Some(snapshot), low, t2);
      var again := CoinStep(down.value, Some(snapshot), b2, t3);
      up.snapshot && !down.snapshot && !again.snapshot &&
      again.value == coins + (b1 - b0).Floor * COINS_PER_TOKEN
  {
  }

  /**
   * The shrink correction keeps energy above the new ceiling: a user at 300
   * energy whose tier falls from 240 to 80 keeps all 300, and a user at the
   * old ceiling of 240 keeps 240 over a ceiling of 80.
   */
  lemma ShrinkKeepsEnergyAboveNewCeiling()
    ensures ShrinkCorrection(240, 300, 80) == 300
    ensures ShrinkCorrection(240, 240, 80) == 240
    ensures ShrinkCorrection(240, 50, 80) == 80
  {
  }

  /** Reconciliation never takes coins away, and sets the ceiling to the tier of the SOL balance. */
  lemma ReconcileGrantsMonotone(t: Tables, wallet: string, env: Env)
    requires UniqueIds(t.users)
    ensures var o := ReconcileSpec(t, wallet, env);
      o.result.Ok? ==>
        var i := UserByWallet(t.users, wallet).value;
        o.db.users[i].gameCoins >= t.users[i].gameCoins &&
        o.db.users[i].energyMax == EnergyForSolBalance(env.solBalance)
  {
    ReconcileKeepsUsers(t, wallet, env);
  }

  /** The coin half of setEnergyAndCoins: a grant on a rise, a re-baseline when stale. */
  method ReconcileCoins(db: Database, user: User, env: Env) returns (updated: User)
    modifies db`coinHistory
    ensures var c := CoinStep(user.gameCoins, Latest(old(db.coinHistory), user.id), env.tokenBalance, env.now);
      updated == user.(gameCoins := c.value) &&
      db.coinHistory == old(db.coinHistory) + (if c.snapshot then [Entry(user.id, env.tokenBalance, env.now)] else [])
  {
    updated := user;
    var coinsRow := Latest(db.coinHistory, user.id);
    if coinsRow.Some? {
      var balance, createdAt := coinsRow.value.value, coinsRow.value.createdAt;
      if balance < env.tokenBalance {
        updated := updated.(gameCoins := updated.gameCoins + (env.tokenBalance - balance).Floor * COINS_PER_TOKEN);
        db.coinHistory := db.coinHistory + [Entry(user.id, env.tokenBalance, env.now)];
      } else if balance != env.tokenBalance && createdAt + MONTH_MS < env.now {
        db.coinHistory := db.coinHistory + [Entry(user.id, env.tokenBalance, env.now)];
      }
    }
  }

  /** The energy half of setEnergyAndCoins, up to the shrink correction. */
  method ReconcileEnergy(db: Database, user: User, env: Env) returns (updated: User)
    modifies db`energyHistory
    ensures var e := EnergyStep(user.energyCurrent, Latest(old(db.energyHistory), user.id), env.solBalance, env.now);
      updated == user.(energyCurrent := e.value) &&
      db.energyHistory == old(db.energyHistory) + (if e.snapshot then [Entry(user.id, env.solBalance, env.now)] else [])
  {
    updated := user;
    var energyFromBalance := EnergyForSolBalance(env.solBalance);
    var energyRow := Latest(db.energyHistory, user.id);
    if energyRow.Some? {
      var lastSolBalance, createdAt := energyRow.value.value, energyRow.value.createdAt;
      if lastSolBalance < env.solBalance {
        var energyIncrease := energyFromBalance - EnergyForSolBalance(lastSolBalance);
        if energyIncrease > 0 {
          updated := updated.(energyCurrent := Min(updated.energyCurrent + energyIncrease, MAX_ENERGY));
        }
        db.energyHistory := db.energyHistory + [Entry(user.id, env.solBalance, env.now)];
      } else if lastSolBalance != env.solBalance && createdAt + MONTH_MS < env.now {
        db.energyHistory := db.energyHistory + [Entry(user.id, env.solBalance, env.now)];
      }
    } else {
      db.energyHistory := db.energyHistory + [Entry(user.id, env.solBalance, env.now)];
      updated := updated.(energyCurrent := Min(energyFromBalance, MAX_ENERGY));
    }
  }

  /** setEnergyAndCoins: the user row and the two ledgers updated in place. */
  method SetEnergyAndCoins(db: Database, wallet: string, env: Env) returns (r: Result<UserView>)
    modifies db
    ensures Outcome(db.State(), r) == ReconcileSpec(old(db.State()), wallet, env)
  {
    var found := UserByWallet(db.users, wallet);
    if found.None? {
      return Err(NotFound(MissingUser));
    }
    var user := db.users[found.value];
    ghost var t0 := db.State();
    ghost var rec := ReconcileUser(user, Latest(t0.coinHistory, user.id), Latest(t0.energyHistory, user.id), env);

    user := ReconcileCoins(db, user, env);
    user := ReconcileEnergy(db, user, env);
    ghost var t1 := t0.(
        coinHistory := t0.coinHistory + (if rec.coinSnapshot then [Entry(user.id, env.tokenBalance, env.now)] else []),
        energyHistory := t0.energyHistory + (if rec.energySnapshot then [Entry(user.id, env.solBalance, env.now)] else []));
    assert db.State() == t1;

    var energyMax := EnergyForSolBalance(env.solBalance);
    if user.energyMax > energyMax {
      var additionalEnergy := if user.energyCurrent > energyMax then user.energyCurrent - energyMax else 0;
      var currentEnergy := energyMax + additionalEnergy;
      user := user.(energyCurrent := if currentEnergy > MAX_ENERGY then MAX_ENERGY else currentEnergy);
    }
    user := user.(energyMax := energyMax);
    assert user == rec.user;
    db.users := Save(db.users, user);
    assert db.State() == t1.(users := Save(t0.users, rec.user));
    r := Ok(Enrich(user, db.State(), env));
    assert ReconcileSpec(t0, wallet, env) == Outcome(t1.(users := Save(t0.users, rec.user)), r);
  }
}
