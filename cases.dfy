/**
 * Loot cases: the chance table, the first-match draw, the per-type effects
 * (`caseFunctions`), the paid `openCase` and the daily `openDailyCase`.
 *
 * Three places where the code does not do what it evidently means are
 * modelled both ways, selected by an `Edition`: `AsWritten` is the code,
 * `Intended` the correction. The methods take the edition as a parameter.
 */
module Cases {
  import opened Store
  import opened Views

  const CASE_PRICE: int := 200
  /** The item id of the gold mask (the field that should hold it is never assigned). */
  const GOLD_MASK_ID: Id := 10
  /** The coins a gold mask pays when the user already owns one. */
  const REPEAT_COINS: int := 400

  datatype Edition = AsWritten | Intended

  /** `Object.values(ECaseType)`: the order in which the draw tries the case types. */
  const CaseOrder: seq<CaseType> :=
    [Energy10, Energy30, Energy50, Coins100, Coins250, Coins500, GoldMask, GoldMaskRepeat]

  /** A closed range `[bottom, top]` of the draw. */
  datatype Range = Range(bottom: real, top: real)

  predicate InRange(r: real, g: Range)
  {
    g.bottom <= r <= g.top
  }

  /**
   * CASE_CHANCES. As written, neighbouring ranges leave gaps such as
   * (0.3, 0.31); the intended table lets each range end where the next begins.
   * The intended ranges are closed too, so neighbours share their endpoint
   * (0.31 lies in both Energy10 and Energy30): that table is not a partition,
   * and the first match in `CaseOrder` decides a shared endpoint.
   */
  function Chance(ed: Edition, c: CaseType): (g: Range)
    ensures c != GoldMaskRepeat ==> 0.0 <= g.bottom < g.top <= 1.0
    ensures c == GoldMaskRepeat ==> g.top < 0.0
    ensures ed == AsWritten && c != GoldMaskRepeat ==> !(exists r :: InGap(r) && InRange(r, g))
  {
    match c
    case Energy10 => Range(0.0, if ed == AsWritten then 0.3 else 0.31)
    case Energy30 => Range(0.31, if ed == AsWritten then 0.5 else 0.51)
    case Energy50 => Range(0.51, if ed == AsWritten then 0.7 else 0.71)
    case Coins100 => Range(0.71, if ed == AsWritten then 0.9 else 0.91)
    case Coins250 => Range(0.91, if ed == AsWritten then 0.98 else 0.981)
    case Coins500 => Range(0.981, if ed == AsWritten then 0.999 else 0.9991)
    case GoldMask => Range(0.9991, 1.0)
    case GoldMaskRepeat => Range(-1.0, -1.0)
  }

  /** Whether the draw stops at `c`: the daily draw skips the repeat type. */
  predicate Eligible(ed: Edition, c: CaseType, r: real, skipRepeat: bool)
  {
    !(skipRepeat && c == GoldMaskRepeat) && InRange(r, Chance(ed, c))
  }

  /** The first case type from position `k` of `CaseOrder` on whose range holds `r`, or none. */
  function DrawFrom(ed: Edition, r: real, skipRepeat: bool, k: nat): (c: Option<CaseType>)
    requires k <= |CaseOrder|
    decreases |CaseOrder| - k
    ensures c.Some? ==> Eligible(ed, c.value, r, skipRepeat)
    ensures c.None? <==> forall j :: k <= j < |CaseOrder| ==> !Eligible(ed, CaseOrder[j], r, skipRepeat)
  {
    if k == |CaseOrder| then None
    else if Eligible(ed, CaseOrder[k], r, skipRepeat) then Some(CaseOrder[k])
    else DrawFrom(ed, r, skipRepeat, k + 1)
  }

  /** The draw: the first case type in `CaseOrder` whose range holds `r`, or none. */
  function Draw(ed: Edition, r: real, skipRepeat: bool): Option<CaseType>
  {
    DrawFrom(ed, r, skipRepeat, 0)
  }

  /** The position of a case type in `CaseOrder`. */
  function Position(c: CaseType): (k: nat)
    ensures k < |CaseOrder| && CaseOrder[k] == c
  {
    match c
    case Energy10 => 0
    case Energy30 => 1
    case Energy50 => 2
    case Coins100 => 3
    case Coins250 => 4
    case Coins500 => 5
    case GoldMask => 6
    case GoldMaskRepeat => 7
  }

  /** The one position whose range, as written, can hold `r`. */
  function Slot(r: real): nat
  {
    if r < 0.0 then 7
    else if r <= 0.3 then 0
    else if r <= 0.5 then 1
    else if r <= 0.7 then 2
    else if r <= 0.9 then 3
    else if r <= 0.98 then 4
    else if r <= 0.999 then 5
    else 6
  }

  /** As written, a range that holds `r` is the one at `Slot(r)`: no two ranges overlap. */
  lemma EligibleAtSlot(c: CaseType, r: real, skipRepeat: bool)
    requires Eligible(AsWritten, c, r, skipRepeat)
    ensures Position(c) == Slot(r)
  {
    match c
    case Energy10 =>
    case Energy30 =>
    case Energy50 =>
    case Coins100 =>
    case Coins250 =>
    case Coins500 =>
    case GoldMask =>
    case GoldMaskRepeat =>
  }

  /**
   * As written the ranges are pairwise disjoint, so the draw is the one case
   * type whose range holds `r`, whatever order the types are tried in.
   */
  lemma DrawIsTheEligibleType(r: real, skipRepeat: bool, c: CaseType)
    ensures Draw(AsWritten, r, skipRepeat) == Some(c) <==> Eligible(AsWritten, c, r, skipRepeat)
  {
    var d := Draw(AsWritten, r, skipRepeat);
    if Eligible(AsWritten, c, r, skipRepeat) {
      EligibleAtSlot(c, r, skipRepeat);
      assert CaseOrder[Position(c)] == c;
      assert d.Some?;
      EligibleAtSlot(d.value, r, skipRepeat);
    }
  }

  /** The repeat type's range is [-1, -1]: no draw in [0, 1) selects it. */
  lemma RepeatNeverDrawn(ed: Edition, r: real, skipRepeat: bool)
    requires 0.0 <= r < 1.0
    ensures Draw(ed, r, skipRepeat) != Some(GoldMaskRepeat)
  {
  }

  /** Whether `r` lies in one of the six gaps the as-written table leaves between its ranges. */
  predicate InGap(r: real)
  {
    (0.3 < r < 0.31) || (0.5 < r < 0.51) || (0.7 < r < 0.71) ||
    (0.9 < r < 0.91) || (0.98 < r < 0.981) || (0.999 < r < 0.9991)
  }

  /** As written a draw in [0, 1) finds no case exactly when it falls into one of the six gaps. */
  lemma DrawGaps(r: real, skipRepeat: bool)
    requires 0.0 <= r < 1.0
    ensures Draw(AsWritten, r, skipRepeat).None? <==> InGap(r)
  {
    var d := Draw(AsWritten, r, skipRepeat);
    if d.Some? {
      assert Eligible(AsWritten, d.value, r, skipRepeat);
    } else {
      assert forall k :: 0 <= k < |CaseOrder| ==> !Eligible(AsWritten, CaseOrder[k], r, skipRepeat);
      assert !Eligible(AsWritten, CaseOrder[0], r, skipRepeat);
      assert !Eligible(AsWritten, CaseOrder[1], r, skipRepeat);
      assert !Eligible(AsWritten, CaseOrder[2], r, skipRepeat);
      assert !Eligible(AsWritten, CaseOrder[3], r, skipRepeat);
      assert !Eligible(AsWritten, CaseOrder[4], r, skipRepeat);
      assert !Eligible(AsWritten, CaseOrder[5], r, skipRepeat);
      assert !Eligible(AsWritten, CaseOrder[6], r, skipRepeat);
    }
  }

  /** With the intended table every draw in [0, 1) finds a case, and never the repeat type. */
  lemma IntendedDrawTotal(r: real, skipRepeat: bool)
    requires 0.0 <= r < 1.0
    ensures Draw(Intended, r, skipRepeat).Some?
    ensures Draw(Intended, r, skipRepeat).value != GoldMaskRepeat
  {
    var k := if r <= 0.31 then 0 else if r <= 0.51 then 1 else if r <= 0.71 then 2
      else if r <= 0.91 then 3 else if r <= 0.981 then 4 else if r <= 0.9991 then 5 else 6;
    assert Eligible(Intended, CaseOrder[k], r, skipRepeat);
  }

  /** The first-match loop over the case types, with the daily draw's `continue` on the repeat type. */
  method SelectCase(ed: Edition, r: real, skipRepeat: bool) returns (c: Option<CaseType>)
    ensures c == Draw(ed, r, skipRepeat)
  {
    var k := 0;
    while k < |CaseOrder|
      invariant 0 <= k <= |CaseOrder|
      invariant DrawFrom(ed, r, skipRepeat, k) == Draw(ed, r, skipRepeat)
    {
      var key := CaseOrder[k];
      assert DrawFrom(ed, r, skipRepeat, k) ==
        if Eligible(ed, key, r, skipRepeat) then Some(key) else DrawFrom(ed, r, skipRepeat, k + 1);
      if skipRepeat && key == GoldMaskRepeat {
        k := k + 1;
        continue;
      }
      var range := Chance(ed, key);
      if r >= range.bottom && r <= range.top {
        return Some(key);
      }
      k := k + 1;
    }
    return None;
  }

  function EnergyPrize(c: CaseType): int
  {
    match c
    case Energy10 => 10
    case Energy30 => 30
    case Energy50 => 50
    case _ => 0
  }

  function CoinPrize(c: CaseType): int
  {
    match c
    case Coins100 => 100
    case Coins250 => 250
    case Coins500 => 500
    case _ => 0
  }

  /**
   * The `isDaily` column of the case-history row. As written the coins_250
   * effect leaves it out of the row, which then is not a daily one.
   */
  function RecordedDaily(ed: Edition, c: CaseType, isDaily: bool): bool
  {
    if ed == AsWritten && c == Coins250 then false else isDaily
  }

  /**
   * `caseFunctions[c](userId, isDaily)`: loads its own copy of the user,
   * applies the prize, saves the copy and records the opening. A missing user
   * changes nothing; the repeat type's function does nothing at all.
   */
  function CaseEffect(ed: Edition, t: Tables, c: CaseType, userId: Id, isDaily: bool, now: Millis): (t': Tables)
    ensures t'.items == t.items && t'.coinHistory == t.coinHistory && t'.energyHistory == t.energyHistory
    ensures t'.gameHistory == t.gameHistory && t'.tasks == t.tasks && t'.userTasks == t.userTasks
    ensures c == GoldMaskRepeat || UserById(t.users, userId).None? ==> t' == t
  {
    if c == GoldMaskRepeat then t
    else match UserById(t.users, userId)
      case None => t
      case Some(i) =>
        var u := t.users[i];
        if c == GoldMask then
          if Owns(t.inventory, u.id, GOLD_MASK_ID) then
            t.(users := Save(t.users, u.(gameCoins := u.gameCoins + REPEAT_COINS)),
               caseHistory := t.caseHistory + [Entry(userId, CaseOpening(GoldMaskRepeat, isDaily), now)])
          else
            t.(inventory := t.inventory + [InventoryRow(u.id, GOLD_MASK_ID)],
               users := Save(t.users, u),
               caseHistory := t.caseHistory + [Entry(userId, CaseOpening(GoldMask, isDaily), now)])
        else
          t.(users := Save(t.users, u.(energyCurrent := u.energyCurrent + EnergyPrize(c),
                                       gameCoins := u.gameCoins + CoinPrize(c))),
             caseHistory := t.caseHistory + [Entry(userId, CaseOpening(c, RecordedDaily(ed, c, isDaily)), now)])
  }

  /** The prize of a found user's case, the row it records and the place of the user's row. */
  lemma CaseEffectAt(ed: Edition, t: Tables, c: CaseType, userId: Id, isDaily: bool, now: Millis, i: nat)
    requires UserById(t.users, userId) == Some(i)
    requires c != GoldMaskRepeat
    ensures i < |t.users|
    ensures var u := t.users[i];
      var t' := CaseEffect(ed, t, c, userId, isDaily, now);
      var owned := c == GoldMask && Owns(t.inventory, u.id, GOLD_MASK_ID);
      var recorded := if owned then GoldMaskRepeat else c;
      t'.users == t.users[i := u.(energyCurrent := u.energyCurrent + EnergyPrize(c),
                                  gameCoins := u.gameCoins + CoinPrize(c) + (if owned then REPEAT_COINS else 0))] &&
      UserById(t'.users, userId) == Some(i) &&
      t'.caseHistory == t.caseHistory + [Entry(userId, CaseOpening(recorded, RecordedDaily(ed, c, isDaily)), now)] &&
      t'.inventory == t.inventory + (if c == GoldMask && !owned then [InventoryRow(userId, GOLD_MASK_ID)] else [])
  {
    var u := t.users[i];
    if c == GoldMask {
      if Owns(t.inventory, u.id, GOLD_MASK_ID) {
        SaveAtFound(t.users, i, u.(gameCoins := u.gameCoins + REPEAT_COINS));
      } else {
        SaveAtFound(t.users, i, u);
        assert u.(energyCurrent := u.energyCurrent + 0, gameCoins := u.gameCoins + 0 + 0) == u;
      }
    } else {
      SaveAtFound(t.users, i, u.(energyCurrent := u.energyCurrent + EnergyPrize(c), gameCoins := u.gameCoins + CoinPrize(c)));
    }
  }

  /** The user's row after any case effect: the prize added to the row the id is found at. */
  lemma CaseEffectUsers(ed: Edition, t: Tables, c: CaseType, userId: Id, isDaily: bool, now: Millis, i: nat)
    requires UserById(t.users, userId) == Some(i)
    ensures i < |t.users|
    ensures var u := t.users[i];
      var owned := c == GoldMask && Owns(t.inventory, u.id, GOLD_MASK_ID);
      CaseEffect(ed, t, c, userId, isDaily, now).users ==
        t.users[i := u.(energyCurrent := u.energyCurrent + EnergyPrize(c),
                        gameCoins := u.gameCoins + CoinPrize(c) + (if owned then REPEAT_COINS else 0))]
  {
    var u := t.users[i];
    if c == GoldMaskRepeat {
      assert u.(energyCurrent := u.energyCurrent + 0, gameCoins := u.gameCoins + 0 + 0) == u;
      assert t.users[i := u] == t.users;
    } else {
      CaseEffectAt(ed, t, c, userId, isDaily, now, i);
    }
  }

  /** Energy prizes are not capped: 50 energy on top of 480 makes 530, above MAX_ENERGY and any ceiling. */
  lemma EnergyPrizeUncapped(t: Tables, userId: Id, now: Millis, i: nat)
    requires UserById(t.users, userId) == Some(i)
    requires t.users[i].energyCurrent == 480
    ensures CaseEffect(AsWritten, t, Energy50, userId, false, now).users[i].energyCurrent == 530
  {
    CaseEffectAt(AsWritten, t, Energy50, userId, false, now, i);
  }

  /**
   * openCase. As written the 200-coin debit is applied to the copy of the
   * user loaded before the effect ran, and saving that copy overwrites the
   * row the effect saved; the intended order applies the effect on top of
   * the debit.
   */
  function OpenCaseSpec(ed: Edition, t: Tables, userId: Id, r: real, now: Millis): (o: Outcome<CaseType>)
    ensures o.result.Err? ==> o.db == t
    ensures o.result == Err(NotFound(MissingUser)) <==> UserById(t.users, userId).None?
    ensures o.result == Err(BadRequest) <==>
      UserById(t.users, userId).Some? && t.users[UserById(t.users, userId).value].gameCoins < CASE_PRICE
    ensures o.result.Ok? ==> Draw(ed, r, false) == Some(o.result.value)
  {
    match UserById(t.users, userId)
    case None => Outcome(t, Err(NotFound(MissingUser)))
    case Some(i) =>
      var u := t.users[i];
      if u.gameCoins < CASE_PRICE then Outcome(t, Err(BadRequest))
      else match Draw(ed, r, false)
        case None => Outcome(t, Err(InternalServerError))
        case Some(c) => Outcome(PaidCase(ed, t, u, c, now), Ok(c))
  }

  /**
   * The writes of a paid case drawn as `c` for the loaded user `u`: the
   * effect runs, then the price is debited. As written the debit goes to the
   * copy loaded before the effect, which is saved over the effect's row;
   * intended, it goes to the row as the effect left it.
   */
  function PaidCase(ed: Edition, t: Tables, u: User, c: CaseType, now: Millis): (t': Tables)
    ensures t'.items == t.items && t'.coinHistory == t.coinHistory && t'.energyHistory == t.energyHistory
    ensures t'.gameHistory == t.gameHistory && t'.tasks == t.tasks && t'.userTasks == t.userTasks
    ensures UserById(t.users, u.id).None? ==> t'.caseHistory == t.caseHistory && t'.inventory == t.inventory
  {
    var t1 := CaseEffect(ed, t, c, u.id, false, now);
    if ed == AsWritten then
      t1.(users := Save(t1.users, u.(gameCoins := u.gameCoins - CASE_PRICE)))
    else match UserById(t1.users, u.id)
      case None => t1
      case Some(j) => t1.(users := Save(t1.users, t1.users[j].(gameCoins := t1.users[j].gameCoins - CASE_PRICE)))
  }


  /** As written, a paid case drawn in any gap with enough coins fails with InternalServerError and writes nothing. */
  lemma OpenCaseGapFails(t: Tables, userId: Id, r: real, now: Millis, i: nat)
    requires UserById(t.users, userId) == Some(i)
    requires t.users[i].gameCoins >= CASE_PRICE
    requires InGap(r)
    ensures OpenCaseSpec(AsWritten, t, userId, r, now) == Outcome(t, Err(InternalServerError))
  {
    DrawGaps(r, false);
  }

  /** OpenCaseSpec for a found user with enough coins and a successful draw, spelled out. */
  lemma OpenCaseSpecAt(ed: Edition, t: Tables, userId: Id, r: real, now: Millis, i: nat)
    requires UserById(t.users, userId) == Some(i)
    requires t.users[i].gameCoins >= CASE_PRICE && Draw(ed, r, false).Some?
    ensures OpenCaseSpec(ed, t, userId, r, now) == Outcome(PaidCase(ed, t, t.users[i], Draw(ed, r, false).value, now), Ok(Draw(ed, r, false).value))
  {
  }

  /** A paid case that succeeds leaves the tables as `PaidCase` describes. */
  lemma OpenCasePaid(ed: Edition, t: Tables, userId: Id, r: real, now: Millis, i: nat)
    requires UserById(t.users, userId) == Some(i)
    ensures var o := OpenCaseSpec(ed, t, userId, r, now);
      o.result.Ok? ==> o.db == PaidCase(ed, t, t.users[i], o.result.value, now)
  {
  }

  /**
   * As written a paid case leaves the user's row at the loaded copy minus the
   * price: the prize the effect saved is overwritten, though the case history
   * records it.
   */
  lemma PaidCasePrizeLost(t: Tables, userId: Id, c: CaseType, now: Millis, i: nat)
    requires UserById(t.users, userId) == Some(i)
    requires c != GoldMaskRepeat
    ensures var u := t.users[i];
      var t' := PaidCase(AsWritten, t, u, c, now);
      t'.users == t.users[i := u.(gameCoins := u.gameCoins - CASE_PRICE)] &&
      t'.caseHistory == t.caseHistory +
        [Entry(userId, CaseOpening(if c == GoldMask && Owns(t.inventory, userId, GOLD_MASK_ID) then GoldMaskRepeat else c,
                                   RecordedDaily(AsWritten, c, false)), now)]
  {
    var u := t.users[i];
    CaseEffectAt(AsWritten, t, c, userId, false, now, i);
    var t1 := CaseEffect(AsWritten, t, c, userId, false, now);
    SaveAtFound(t1.users, i, u.(gameCoins := u.gameCoins - CASE_PRICE));
  }

  /** The same for the whole openCase, for every draw Math.random can make. */
  lemma OpenCasePrizeLost(t: Tables, userId: Id, r: real, now: Millis, i: nat)
    requires UserById(t.users, userId) == Some(i)
    requires 0.0 <= r < 1.0
    ensures var o := OpenCaseSpec(AsWritten, t, userId, r, now);
      o.result.Ok? ==>
        o.db.users == t.users[i := t.users[i].(gameCoins := t.users[i].gameCoins - CASE_PRICE)] &&
        o.db.caseHistory == t.caseHistory +
          [Entry(userId, CaseOpening(if o.result.value == GoldMask && Owns(t.inventory, userId, GOLD_MASK_ID)
                                     then GoldMaskRepeat else o.result.value,
                                     RecordedDaily(AsWritten, o.result.value, false)), now)]
  {
    var o := OpenCaseSpec(AsWritten, t, userId, r, now);
    if o.result.Ok? {
      OpenCaseSpecAt(AsWritten, t, userId, r, now, i);
      RepeatNeverDrawn(AsWritten, r, false);
      PaidCasePrizeLost(t, userId, o.result.value, now, i);
    }
  }

  /** A coins_500 case opened with 300 coins as written leaves 100 coins, not 600. */
  lemma OpenCaseCoins500AsWritten(t: Tables, userId: Id, now: Millis, i: nat)
    requires UserById(t.users, userId) == Some(i)
    requires t.users[i].gameCoins == 300
    ensures var o := OpenCaseSpec(AsWritten, t, userId, 0.99, now);
      o.result == Ok(Coins500) && o.db.users[i].gameCoins == 100
  {
    DrawIsTheEligibleType(0.99, false, Coins500);
    OpenCasePrizeLost(t, userId, 0.99, now, i);
  }

  /**
   * With the intended order a paid case leaves the user's row at the price
   * debited and the prize added: energy prizes to energy, coin prizes and the
   * repeat coins of an owned gold mask to coins.
   */
  lemma PaidCaseIntendedPaysPrize(t: Tables, userId: Id, c: CaseType, now: Millis, i: nat)
    requires UserById(t.users, userId) == Some(i)
    ensures var u := t.users[i];
      var owned := c == GoldMask && Owns(t.inventory, userId, GOLD_MASK_ID);
      PaidCase(Intended, t, u, c, now).users == t.users[i := u.(energyCurrent := u.energyCurrent + EnergyPrize(c),
        gameCoins := u.gameCoins - CASE_PRICE + CoinPrize(c) + (if owned then REPEAT_COINS else 0))]
  {
    var u := t.users[i];
    var owned := c == GoldMask && Owns(t.inventory, userId, GOLD_MASK_ID);
    var t1 := CaseEffect(Intended, t, c, userId, false, now);
    CaseEffectUsers(Intended, t, c, userId, false, now, i);
    CaseEffectKeepsLookup(Intended, t, c, userId, false, now, i);
    PaidCaseIntendedAt(t, u, c, now, i);
    DebitAfterWin(t.users, t1.users, i, EnergyPrize(c), CoinPrize(c) + (if owned then REPEAT_COINS else 0),
                  PaidCase(Intended, t, u, c, now).users);
  }

  /** Saving the won row at `i` with the price taken off is one update of the original users. */
  lemma DebitAfterWin(users: seq<User>, won_users: seq<User>, i: nat, energy: int, coins: int, paid_users: seq<User>)
    requires i < |users|
    requires won_users == users[i := users[i].(energyCurrent := users[i].energyCurrent + energy,
                                               gameCoins := users[i].gameCoins + coins)]
    requires UserById(won_users, users[i].id) == Some(i)
    requires paid_users == Save(won_users, won_users[i].(gameCoins := won_users[i].gameCoins - CASE_PRICE))
    ensures paid_users == users[i := users[i].(energyCurrent := users[i].energyCurrent + energy,
                                               gameCoins := users[i].gameCoins - CASE_PRICE + coins)]
  {
    var u := users[i];
    var won := u.(energyCurrent := u.energyCurrent + energy, gameCoins := u.gameCoins + coins);
    var paid := won.(gameCoins := won.gameCoins - CASE_PRICE);
    assert won_users[i] == won;
    SaveAtFound(won_users, i, paid);
    assert users[i := won][i := paid] == users[i := paid];
  }

  /** Any case effect leaves the user's row where the id finds it. */
  lemma CaseEffectKeepsLookup(ed: Edition, t: Tables, c: CaseType, userId: Id, isDaily: bool, now: Millis, i: nat)
    requires UserById(t.users, userId) == Some(i)
    ensures UserById(CaseEffect(ed, t, c, userId, isDaily, now).users, userId) == Some(i)
  {
    if c != GoldMaskRepeat {
      CaseEffectAt(ed, t, c, userId, isDaily, now, i);
    }
  }

  /** The intended debit: the row the effect left at `j` is reloaded and saved with the price taken off. */
  lemma PaidCaseIntendedAt(t: Tables, u: User, c: CaseType, now: Millis, j: nat)
    requires UserById(CaseEffect(Intended, t, c, u.id, false, now).users, u.id) == Some(j)
    ensures var t1 := CaseEffect(Intended, t, c, u.id, false, now);
      PaidCase(Intended, t, u, c, now).users == Save(t1.users, t1.users[j].(gameCoins := t1.users[j].gameCoins - CASE_PRICE))
  {
  }

  /** The same for the whole openCase. */
  lemma OpenCaseIntendedPaysPrize(t: Tables, userId: Id, r: real, now: Millis, i: nat, c: CaseType)
    requires UserById(t.users, userId) == Some(i)
    requires OpenCaseSpec(Intended, t, userId, r, now).result == Ok(c)
    ensures var u := t.users[i];
      var owned := c == GoldMask && Owns(t.inventory, userId, GOLD_MASK_ID);
      OpenCaseSpec(Intended, t, userId, r, now).db.users ==
        t.users[i := u.(energyCurrent := u.energyCurrent + EnergyPrize(c),
          gameCoins := u.gameCoins - CASE_PRICE + CoinPrize(c) + (if owned then REPEAT_COINS else 0))]
  {
    OpenCasePaid(Intended, t, userId, r, now, i);
    PaidCaseIntendedPaysPrize(t, userId, c, now, i);
  }

  /** What openDailyCase returns: the drawn type, if one was drawn, and the next opening time. */
  datatype DailyResult = DailyResult(caseType: Option<CaseType>, nextCaseTS: Millis)

  /**
   * openDailyCase: while the cooldown runs, the stored next time is returned
   * and nothing is drawn or written; otherwise a draw that skips the repeat
   * type picks a case, its effect runs as a daily one, and the next time is
   * one cooldown from now.
   */
  function OpenDailyCaseSpec(ed: Edition, t: Tables, userId: Id, r: real, now: Millis): (o: Outcome<DailyResult>)
    ensures o.result.Err? ==> o.db == t
    ensures o.result == Err(NotFound(MissingUser)) <==> UserById(t.users, userId).None?
    ensures (o.result.Ok? && o.result.value.caseType.None?) <==>
      UserById(t.users, userId).Some? && !CaseAvailable(NextCaseTS(t.caseHistory, userId), now)
    ensures o.result.Ok? && o.result.value.caseType.None? ==>
      o.db == t && Some(o.result.value.nextCaseTS) == NextCaseTS(t.caseHistory, userId)
    ensures o.result.Ok? && o.result.value.caseType.Some? ==>
      o.result.value.nextCaseTS == now + CASE_COOLDOWN_MS &&
      Draw(ed, r, true) == o.result.value.caseType
  {
    match UserById(t.users, userId)
    case None => Outcome(t, Err(NotFound(MissingUser)))
    case Some(i) =>
      var next := NextCaseTS(t.caseHistory, userId);
      if next.Some? && next.value > now then Outcome(t, Ok(DailyResult(None, next.value)))
      else match Draw(ed, r, true)
        case None => Outcome(t, Err(InternalServerError))
        case Some(c) =>
          Outcome(CaseEffect(ed, t, c, t.users[i].id, true, now),
                  Ok(DailyResult(Some(c), now + CASE_COOLDOWN_MS)))
  }

  /**
   * A daily case that starts its cooldown blocks the next: until one cooldown
   * has passed, a second call returns the time the first one returned and
   * writes nothing. With the intended recording every daily case starts it;
   * as written every type but coins_250 does.
   */
  lemma DailyCooldownHolds(ed: Edition, t: Tables, userId: Id, r: real, now: Millis, r2: real, now2: Millis)
    requires var o := OpenDailyCaseSpec(ed, t, userId, r, now);
      o.result.Ok? && o.result.value.caseType.Some? &&
      (ed == Intended || o.result.value.caseType.value != Coins250)
    requires now <= now2 < now + CASE_COOLDOWN_MS
    ensures var o := OpenDailyCaseSpec(ed, t, userId, r, now);
      OpenDailyCaseSpec(ed, o.db, userId, r2, now2) == Outcome(o.db, Ok(DailyResult(None, now + CASE_COOLDOWN_MS)))
  {
    var o := OpenDailyCaseSpec(ed, t, userId, r, now);
    assert UserById(o.db.users, userId).Some? && NextCaseTS(o.db.caseHistory, userId) == Some(now + CASE_COOLDOWN_MS) by {
      DailyOpeningRecorded(ed, t, userId, r, now);
    }
    DailyBlocked(ed, o.db, userId, r2, now2);
  }

  /** A daily opening that records itself as daily moves the cooldown to one cooldown from now. */
  lemma DailyOpeningRecorded(ed: Edition, t: Tables, userId: Id, r: real, now: Millis)
    requires var o := OpenDailyCaseSpec(ed, t, userId, r, now);
      o.result.Ok? && o.result.value.caseType.Some? &&
      (ed == Intended || o.result.value.caseType.value != Coins250)
    ensures var o := OpenDailyCaseSpec(ed, t, userId, r, now);
      UserById(o.db.users, userId).Some? && NextCaseTS(o.db.caseHistory, userId) == Some(now + CASE_COOLDOWN_MS)
  {
    var o := OpenDailyCaseSpec(ed, t, userId, r, now);
    var i := UserById(t.users, userId).value;
    var c := o.result.value.caseType.value;
    assert c != GoldMaskRepeat;
    assert o.db == CaseEffect(ed, t, c, userId, true, now) by {
      DailyOpeningAt(ed, t, userId, r, now, i, c);
    }
    EffectRecordsDaily(ed, t, c, userId, now, i);
  }

  /** An opening the cooldown allows runs the drawn type's effect as a daily one. */
  lemma DailyOpeningAt(ed: Edition, t: Tables, userId: Id, r: real, now: Millis, i: nat, c: CaseType)
    requires UserById(t.users, userId) == Some(i)
    requires CaseAvailable(NextCaseTS(t.caseHistory, userId), now)
    requires Draw(ed, r, true) == Some(c)
    ensures OpenDailyCaseSpec(ed, t, userId, r, now).db == CaseEffect(ed, t, c, userId, true, now)
  {
  }

  /** An effect recorded as daily puts the next opening one cooldown after it. */
  lemma EffectRecordsDaily(ed: Edition, t: Tables, c: CaseType, userId: Id, now: Millis, i: nat)
    requires UserById(t.users, userId) == Some(i)
    requires c != GoldMaskRepeat && RecordedDaily(ed, c, true)
    ensures var t' := CaseEffect(ed, t, c, userId, true, now);
      UserById(t'.users, userId).Some? && NextCaseTS(t'.caseHistory, userId) == Some(now + CASE_COOLDOWN_MS)
  {
    CaseEffectAt(ed, t, c, userId, true, now, i);
    var recorded := if c == GoldMask && Owns(t.inventory, t.users[i].id, GOLD_MASK_ID) then GoldMaskRepeat else c;
    NextCaseTSAfterAppend(t.caseHistory, Entry(userId, CaseOpening(recorded, true), now), userId);
  }

  /** While the cooldown runs, openDailyCase answers the stored time and writes nothing. */
  lemma DailyBlocked(ed: Edition, t: Tables, userId: Id, r: real, now: Millis)
    requires UserById(t.users, userId).Some?
    requires NextCaseTS(t.caseHistory, userId).Some? && NextCaseTS(t.caseHistory, userId).value > now
    ensures OpenDailyCaseSpec(ed, t, userId, r, now) == Outcome(t, Ok(DailyResult(None, NextCaseTS(t.caseHistory, userId).value)))
  {
  }

  /**
   * As written, a daily case drawn in any gap once the cooldown is over fails
   * with InternalServerError and writes nothing: skipping the repeat type
   * does not close the gaps.
   */
  lemma OpenDailyCaseGapFails(t: Tables, userId: Id, r: real, now: Millis)
    requires UserById(t.users, userId).Some?
    requires CaseAvailable(NextCaseTS(t.caseHistory, userId), now)
    requires InGap(r)
    ensures OpenDailyCaseSpec(AsWritten, t, userId, r, now) == Outcome(t, Err(InternalServerError))
  {
    DrawGaps(r, true);
  }

  /**
   * As written a daily coins_250 leaves the cooldown where it was, though
   * the call answers that the next case is one cooldown away: when no daily
   * case was recorded before, another one can be opened at once.
   */
  lemma DailyCoins250LeavesCooldownOpen(t: Tables, userId: Id, r: real, now: Millis)
    requires OpenDailyCaseSpec(AsWritten, t, userId, r, now).result.Ok?
    requires OpenDailyCaseSpec(AsWritten, t, userId, r, now).result.value.caseType == Some(Coins250)
    ensures var o := OpenDailyCaseSpec(AsWritten, t, userId, r, now);
      o.result.value.nextCaseTS == now + CASE_COOLDOWN_MS &&
      NextCaseTS(o.db.caseHistory, userId) == NextCaseTS(t.caseHistory, userId) &&
      CaseAvailable(NextCaseTS(o.db.caseHistory, userId), now)
  {
    var i := UserById(t.users, userId).value;
    CaseEffectAt(AsWritten, t, Coins250, userId, true, now, i);
    NextCaseTSAfterAppend(t.caseHistory, Entry(userId, CaseOpening(Coins250, false), now), userId);
  }

  /** A first daily coins_250 (drawn for r in [0.91, 0.98]) can be followed by another one at once. */
  lemma DailyCoins250Twice(t: Tables, userId: Id, r: real, now: Millis)
    requires UserById(t.users, userId).Some?
    requires NextCaseTS(t.caseHistory, userId).None?
    requires 0.91 <= r <= 0.98
    ensures var o := OpenDailyCaseSpec(AsWritten, t, userId, r, now);
      o.result == Ok(DailyResult(Some(Coins250), now + CASE_COOLDOWN_MS)) &&
      OpenDailyCaseSpec(AsWritten, o.db, userId, r, now).result == Ok(DailyResult(Some(Coins250), now + CASE_COOLDOWN_MS))
  {
    DrawIsTheEligibleType(r, true, Coins250);
    var o := OpenDailyCaseSpec(AsWritten, t, userId, r, now);
    DailyCoins250LeavesCooldownOpen(t, userId, r, now);
    var i := UserById(t.users, userId).value;
    CaseEffectAt(AsWritten, t, Coins250, userId, true, now, i);
  }

  /** The energy and coin entries of caseFunctions: load the user, add the prize, save, record. */
  method PrizeCase(ed: Edition, db: Database, c: CaseType, userId: Id, isDaily: bool, now: Millis)
    requires c != GoldMask && c != GoldMaskRepeat
    modifies db`users, db`caseHistory
    ensures db.State() == CaseEffect(ed, old(db.State()), c, userId, isDaily, now)
  {
    var found := UserById(db.users, userId);
    if found.None? {
      return;
    }
    ghost var t0 := db.State();
    var user := db.users[found.value];
    user := user.(energyCurrent := user.energyCurrent + EnergyPrize(c), gameCoins := user.gameCoins + CoinPrize(c));
    ghost var row := Entry(userId, CaseOpening(c, RecordedDaily(ed, c, isDaily)), now);
    assert CaseEffect(ed, t0, c, userId, isDaily, now) ==
      t0.(users := Save(t0.users, user), caseHistory := t0.caseHistory + [row]);
    db.users := Save(db.users, user);
    if ed == AsWritten && c == Coins250 {
      // As written this entry writes its row without `isDaily`.
      db.caseHistory := db.caseHistory + [Entry(userId, CaseOpening(c, false), now)];
    } else {
      db.caseHistory := db.caseHistory + [Entry(userId, CaseOpening(c, isDaily), now)];
    }
  }

  /** The gold-mask entry of caseFunctions: the mask on the first win, 400 coins on a repeat. */
  method GoldMaskCase(ed: Edition, db: Database, userId: Id, isDaily: bool, now: Millis)
    modifies db`users, db`inventory, db`caseHistory
    ensures db.State() == CaseEffect(ed, old(db.State()), GoldMask, userId, isDaily, now)
  {
    var found := UserById(db.users, userId);
    if found.None? {
      return;
    }
    ghost var t0 := db.State();
    ghost var effect := CaseEffect(ed, t0, GoldMask, userId, isDaily, now);
    var user := db.users[found.value];
    if !Owns(db.inventory, user.id, GOLD_MASK_ID) {
      assert effect == t0.(inventory := t0.inventory + [InventoryRow(user.id, GOLD_MASK_ID)],
                           users := Save(t0.users, user),
                           caseHistory := t0.caseHistory + [Entry(userId, CaseOpening(GoldMask, isDaily), now)]);
      db.inventory := db.inventory + [InventoryRow(user.id, GOLD_MASK_ID)];
      db.users := Save(db.users, user);
      db.caseHistory := db.caseHistory + [Entry(userId, CaseOpening(GoldMask, isDaily), now)];
    } else {
      user := user.(gameCoins := user.gameCoins + REPEAT_COINS);
      assert effect == t0.(users := Save(t0.users, user),
                           caseHistory := t0.caseHistory + [Entry(userId, CaseOpening(GoldMaskRepeat, isDaily), now)]);
      db.users := Save(db.users, user);
      db.caseHistory := db.caseHistory + [Entry(userId, CaseOpening(GoldMaskRepeat, isDaily), now)];
    }
  }

  /** caseFunctions[c](userId, isDaily), in place; the repeat type's entry does nothing. */
  method CaseFunction(ed: Edition, db: Database, c: CaseType, userId: Id, isDaily: bool, now: Millis)
    modifies db`users, db`inventory, db`caseHistory
    ensures db.State() == CaseEffect(ed, old(db.State()), c, userId, isDaily, now)
  {
    if c == GoldMaskRepeat {
    } else if c == GoldMask {
      GoldMaskCase(ed, db, userId, isDaily, now);
    } else {
      PrizeCase(ed, db, c, userId, isDaily, now);
    }
  }

  /**
   * openCase's debit of the case price. As written the copy `u` loaded
   * before the effect is debited and saved; intended, the row as the effect
   * left it is reloaded and debited.
   */
  method Debit(ed: Edition, db: Database, u: User, ghost t: Tables, ghost c: CaseType, ghost now: Millis)
    requires db.State() == CaseEffect(ed, t, c, u.id, false, now)
    modifies db`users
    ensures db.State() == PaidCase(ed, t, u, c, now)
  {
    if ed == AsWritten {
      db.users := Save(db.users, u.(gameCoins := u.gameCoins - CASE_PRICE));
    } else {
      var j := UserById(db.users, u.id);
      if j.Some? {
        var reloaded := db.users[j.value];
        db.users := Save(db.users, reloaded.(gameCoins := reloaded.gameCoins - CASE_PRICE));
      }
    }
  }

  /** openCase, as written or with the debit applied to the row the effect saved. */
  method OpenCase(ed: Edition, db: Database, userId: Id, r: real, now: Millis) returns (res: Result<CaseType>)
    modifies db
    ensures Outcome(db.State(), res) == OpenCaseSpec(ed, old(db.State()), userId, r, now)
  {
    var found := UserById(db.users, userId);
    if found.None? {
      return Err(NotFound(MissingUser));
    }
    var user := db.users[found.value];
    if user.gameCoins < CASE_PRICE {
      return Err(BadRequest);
    }
    var caseType := SelectCase(ed, r, false);
    if caseType.None? {
      return Err(InternalServerError);
    }
    ghost var t0 := db.State();
    OpenCaseSpecAt(ed, t0, userId, r, now, found.value);
    CaseFunction(ed, db, caseType.value, user.id, false, now);
    Debit(ed, db, user, t0, caseType.value, now);
    res := Ok(caseType.value);
  }

  /** openDailyCase. */
  method OpenDailyCase(ed: Edition, db: Database, userId: Id, r: real, now: Millis) returns (res: Result<DailyResult>)
    modifies db
    ensures Outcome(db.State(), res) == OpenDailyCaseSpec(ed, old(db.State()), userId, r, now)
  {
    var found := UserById(db.users, userId);
    if found.None? {
      return Err(NotFound(MissingUser));
    }
    var user := db.users[found.value];
    var nextCaseTS := NextCaseTS(db.caseHistory, userId);
    if nextCaseTS.Some? && nextCaseTS.value > now {
      return Ok(DailyResult(None, nextCaseTS.value));
    }
    var caseType := SelectCase(ed, r, true);
    if caseType.None? {
      return Err(InternalServerError);
    }
    CaseFunction(ed, db, caseType.value, user.id, true, now);
    res := Ok(DailyResult(caseType, now + CASE_COOLDOWN_MS));
  }
}
