/**
 * The collection walk (monzo_collector.go): for each access token in order,
 * fetch the caller's identity, then list the accounts and set three gauges
 * per account from its balance, then list the pots and set one gauge per
 * pot. Any upstream error panics, which ends the whole walk at once; the
 * gauges already set keep their new values.
 *
 * The walk is specified by the log of gauge writes it performs (`Walk`),
 * which depends only on the upstream answers; the registry after the walk
 * is the registry before it with the log applied (`ApplyAll`). The methods
 * that mirror the Go functions are proved against these functions.
 */
module MonzoCollector {

  import opened MonzoTypes
  import opened MonzoMetrics

  /** The upstream API (monzo_api.go), one answer per call and arguments. */
  datatype Upstream = Upstream(
    identity: string -> Result<CallerIdentity>,
    accounts: string -> Result<seq<Account>>,
    balance: (string, string) -> Result<Balance>,
    pots: string -> Result<seq<Pot>>)

  datatype AccountGauge = CurrentBalanceGauge | TotalBalanceGauge | SpendTodayGauge

  /** One gauge write made by the walk. */
  datatype Write =
    | AccountWrite(gauge: AccountGauge, account: AccountSeries, value: int)
    | PotWrite(pot: PotSeries, value: int)

  /** The `user_id` label a write carries. */
  function UserOf(w: Write): string {
    if w.AccountWrite? then w.account.userID else w.pot.userID
  }

  /** The writes made so far, and whether the walk has panicked. */
  datatype Walk = Walk(log: seq<Write>, panicked: bool)

  /** An account gauge after one write: overwritten at the write's series if the write names that gauge. */
  function WriteAccountGauge(m: map<AccountSeries, int>, gauge: AccountGauge, w: Write): map<AccountSeries, int> {
    if w.AccountWrite? && w.gauge == gauge then m[w.account := w.value] else m
  }

  /** The pot gauge after one write: overwritten at the write's series if it is a pot write. */
  function WritePotGauge(m: map<PotSeries, int>, w: Write): map<PotSeries, int> {
    if w.PotWrite? then m[w.pot := w.value] else m
  }

  /** One write: the series it names now holds its value. */
  function Apply(r: Registry, w: Write): Registry {
    r.(currentBalance := WriteAccountGauge(r.currentBalance, CurrentBalanceGauge, w),
       totalBalance := WriteAccountGauge(r.totalBalance, TotalBalanceGauge, w),
       spendToday := WriteAccountGauge(r.spendToday, SpendTodayGauge, w),
       potBalance := WritePotGauge(r.potBalance, w))
  }

  // A write is what the matching setter does.

  lemma CurrentBalanceWriteIsSetter(r: Registry, userID: string, accountID: string, v: int)
    ensures Apply(r, AccountWrite(CurrentBalanceGauge, AccountSeries(userID, accountID), v))
         == WithCurrentBalance(r, userID, accountID, v)
  {
  }

  lemma TotalBalanceWriteIsSetter(r: Registry, userID: string, accountID: string, v: int)
    ensures Apply(r, AccountWrite(TotalBalanceGauge, AccountSeries(userID, accountID), v))
         == WithTotalBalance(r, userID, accountID, v)
  {
  }

  lemma SpendTodayWriteIsSetter(r: Registry, userID: string, accountID: string, v: int)
    ensures Apply(r, AccountWrite(SpendTodayGauge, AccountSeries(userID, accountID), v))
         == WithSpendToday(r, userID, accountID, v)
  {
  }

  lemma PotWriteIsSetter(r: Registry, userID: string, potID: string, potName: string, v: int)
    ensures Apply(r, PotWrite(PotSeries(userID, potID, potName), v)) == WithPotBalance(r, userID, potID, potName, v)
  {
  }

  /** The vector behind one account gauge. */
  function AccountVector(r: Registry, gauge: AccountGauge): map<AccountSeries, int> {
    match gauge
    case CurrentBalanceGauge => r.currentBalance
    case TotalBalanceGauge => r.totalBalance
    case SpendTodayGauge => r.spendToday
  }

  /** A write changes an account gauge only when it names that gauge, and then only its own series. */
  lemma ApplyAccountVector(r: Registry, w: Write, gauge: AccountGauge)
    ensures AccountVector(Apply(r, w), gauge) == WriteAccountGauge(AccountVector(r, gauge), gauge, w)
  {
    match gauge
    case CurrentBalanceGauge =>
    case TotalBalanceGauge =>
    case SpendTodayGauge =>
  }

  /** The registry after performing the writes of `log` in order. */
  function ApplyAll(r: Registry, log: seq<Write>): Registry
    decreases |log|
  {
    if log == [] then r else Apply(ApplyAll(r, log[..|log| - 1]), log[|log| - 1])
  }

  // ---------------------------------------------------------------------
  // The walk, as the log it writes.
  // ---------------------------------------------------------------------

  /** The three writes for one account: current, total, spend today. */
  function AccountWrites(userID: string, accountID: string, b: Balance): seq<Write> {
    [AccountWrite(CurrentBalanceGauge, AccountSeries(userID, accountID), b.balance),
     AccountWrite(TotalBalanceGauge, AccountSeries(userID, accountID), b.totalBalance),
     AccountWrite(SpendTodayGauge, AccountSeries(userID, accountID), b.spendToday)]
  }

  /** The loop over the listed accounts; a balance error panics. */
  function WalkAccounts(up: Upstream, token: string, userID: string, accounts: seq<Account>): Walk
    decreases |accounts|
  {
    if accounts == [] then Walk([], false)
    else
      var w := WalkAccounts(up, token, userID, accounts[..|accounts| - 1]);
      var account := accounts[|accounts| - 1];
      if w.panicked then w
      else
        match up.balance(token, account.id)
        case Err(_) => Walk(w.log, true)
        case Ok(b) => Walk(w.log + AccountWrites(userID, account.id, b), false)
  }

  /** The loop over the listed pots: one write each. */
  function PotWrites(userID: string, pots: seq<Pot>): seq<Write>
    decreases |pots|
  {
    if pots == [] then []
    else
      var pot := pots[|pots| - 1];
      PotWrites(userID, pots[..|pots| - 1]) + [PotWrite(PotSeries(userID, pot.id, pot.name), pot.balance)]
  }

  function CollectAccounts(up: Upstream, token: string, identity: CallerIdentity): Walk {
    match up.accounts(token)
    case Err(_) => Walk([], true)
    case Ok(accounts) => WalkAccounts(up, token, identity.userID, accounts)
  }

  function CollectPots(up: Upstream, token: string, identity: CallerIdentity): Walk {
    match up.pots(token)
    case Err(_) => Walk([], true)
    case Ok(pots) => Walk(PotWrites(identity.userID, pots), false)
  }

  /** `w` followed by `next`, unless `w` has already panicked. */
  function Then(w: Walk, next: Walk): Walk {
    if w.panicked then w else Walk(w.log + next.log, next.panicked)
  }

  /** One token: identity, then accounts, then pots. */
  function CollectToken(up: Upstream, token: string): Walk {
    match up.identity(token)
    case Err(_) => Walk([], true)
    case Ok(identity) => Then(CollectAccounts(up, token, identity), CollectPots(up, token, identity))
  }

  /** The whole walk over the tokens, in order; a panic ends it. */
  function CollectAll(up: Upstream, tokens: seq<string>): Walk
    decreases |tokens|
  {
    if tokens == [] then Walk([], false)
    else Then(CollectAll(up, tokens[..|tokens| - 1]), CollectToken(up, tokens[|tokens| - 1]))
  }

  // ---------------------------------------------------------------------
  // Ordering and early termination.
  // ---------------------------------------------------------------------

  /** Once the walk over a prefix has panicked, later tokens change nothing. */
  lemma {:induction false} PanicIsFinal(up: Upstream, tokens: seq<string>, k: nat)
    requires k <= |tokens|
    requires CollectAll(up, tokens[..k]).panicked
    ensures CollectAll(up, tokens) == CollectAll(up, tokens[..k])
    decreases |tokens| - k
  {
    if k < |tokens| {
      var prefix := tokens[..|tokens| - 1];
      assert prefix[..k] == tokens[..k];
      PanicIsFinal(up, prefix, k);
    } else {
      assert tokens[..k] == tokens;
    }
  }

  /**
   * An identity error at token k, reached without an earlier panic, ends the
   * walk there: the log is the log of tokens 0..k-1 and no later token is
   * looked at.
   */
  lemma IdentityErrorStopsWalk(up: Upstream, tokens: seq<string>, k: nat)
    requires k < |tokens|
    requires !CollectAll(up, tokens[..k]).panicked
    requires up.identity(tokens[k]).Err?
    ensures CollectAll(up, tokens) == Walk(CollectAll(up, tokens[..k]).log, true)
  {
    assert tokens[..k + 1][..k] == tokens[..k];
    assert CollectAll(up, tokens[..k + 1]) == Walk(CollectAll(up, tokens[..k]).log, true);
    PanicIsFinal(up, tokens, k + 1);
  }

  /**
   * Tokens are walked in input order: the walk over `first + second` is the
   * walk over `first` followed by the walk over `second`, unless `first`
   * already panicked.
   */
  lemma {:induction false} CollectAllConcat(up: Upstream, first: seq<string>, second: seq<string>)
    ensures CollectAll(up, first + second) == Then(CollectAll(up, first), CollectAll(up, second))
    decreases |second|
  {
    if second == [] {
      assert first + second == first;
    } else {
      var all := first + second;
      var init := second[..|second| - 1];
      var t := CollectToken(up, second[|second| - 1]);
      assert all[..|all| - 1] == first + init;
      assert all[|all| - 1] == second[|second| - 1];
      CollectAllConcat(up, first, init);
      ThenAssociative(CollectAll(up, first), CollectAll(up, init), t);
    }
  }

  /** Chaining walks is associative. */
  lemma ThenAssociative(a: Walk, b: Walk, c: Walk)
    ensures Then(Then(a, b), c) == Then(a, Then(b, c))
  {
    if !a.panicked && !b.panicked {
      assert a.log + b.log + c.log == a.log + (b.log + c.log);
    }
  }

  lemma {:induction false} WalkAccountsOnlyAccountWrites(
    up: Upstream, token: string, userID: string, accounts: seq<Account>)
    ensures forall i :: 0 <= i < |WalkAccounts(up, token, userID, accounts).log| ==>
              WalkAccounts(up, token, userID, accounts).log[i].AccountWrite?
              && UserOf(WalkAccounts(up, token, userID, accounts).log[i]) == userID
    decreases |accounts|
  {
    if accounts != [] {
      WalkAccountsOnlyAccountWrites(up, token, userID, accounts[..|accounts| - 1]);
    }
  }

  lemma {:induction false} PotWritesOnlyPotWrites(userID: string, pots: seq<Pot>)
    ensures |PotWrites(userID, pots)| == |pots|
    ensures forall i :: 0 <= i < |pots| ==>
              PotWrites(userID, pots)[i] == PotWrite(PotSeries(userID, pots[i].id, pots[i].name), pots[i].balance)
    decreases |pots|
  {
    if pots != [] {
      PotWritesOnlyPotWrites(userID, pots[..|pots| - 1]);
    }
  }

  /**
   * Within one token, every write carries the identity's user id, and every
   * account write comes before every pot write.
   */
  lemma TokenWritesOrdered(up: Upstream, token: string)
    ensures var log := CollectToken(up, token).log;
            && (forall i :: 0 <= i < |log| ==>
                  up.identity(token).Ok? && UserOf(log[i]) == up.identity(token).value.userID)
            && (forall i, j :: 0 <= i < j < |log| && log[i].PotWrite? ==> log[j].PotWrite?)
  {
    if up.identity(token).Ok? {
      var identity := up.identity(token).value;
      if up.accounts(token).Ok? {
        WalkAccountsOnlyAccountWrites(up, token, identity.userID, up.accounts(token).value);
      }
      if up.pots(token).Ok? {
        PotWritesOnlyPotWrites(identity.userID, up.pots(token).value);
      }
    }
  }

  /** The user ids of the identities the tokens resolve to. */
  function IdentityUsers(up: Upstream, tokens: seq<string>): set<string> {
    set t | t in tokens && up.identity(t).Ok? :: up.identity(t).value.userID
  }

  /** Every series the walk writes carries the user id of one of the tokens' identities, never anything else. */
  lemma {:induction false} WritesCarryIdentityUser(up: Upstream, tokens: seq<string>)
    ensures forall i :: 0 <= i < |CollectAll(up, tokens).log| ==>
              UserOf(CollectAll(up, tokens).log[i]) in IdentityUsers(up, tokens)
    decreases |tokens|
  {
    if tokens != [] {
      var prefix := tokens[..|tokens| - 1];
      var last := tokens[|tokens| - 1];
      WritesCarryIdentityUser(up, prefix);
      TokenWritesOrdered(up, last);
      assert IdentityUsers(up, prefix) <= IdentityUsers(up, tokens) by {
        forall t | t in prefix ensures t in tokens {
        }
      }
      var prev := CollectAll(up, prefix);
      if !prev.panicked {
        var log := CollectAll(up, tokens).log;
        var tlog := CollectToken(up, last).log;
        assert log == prev.log + tlog;
        forall i | 0 <= i < |log|
          ensures UserOf(log[i]) in IdentityUsers(up, tokens)
        {
          if i < |prev.log| {
            assert log[i] == prev.log[i];
          } else {
            assert log[i] == tlog[i - |prev.log|];
            assert last in tokens;
          }
        }
      }
    }
  }

  /**
   * With every balance available, the account loop writes current, total and
   * spend-today for each account in list order, keyed by (user id, account id),
   * with that account's balance.
   */
  lemma {:induction false} AccountsWrittenInOrder(up: Upstream, token: string, userID: string, accounts: seq<Account>)
    requires forall i :: 0 <= i < |accounts| ==> up.balance(token, accounts[i].id).Ok?
    ensures !WalkAccounts(up, token, userID, accounts).panicked
    ensures |WalkAccounts(up, token, userID, accounts).log| == 3 * |accounts|
    ensures forall i :: 0 <= i < |accounts| ==>
              WalkAccounts(up, token, userID, accounts).log[3 * i..3 * i + 3]
              == AccountWrites(userID, accounts[i].id, up.balance(token, accounts[i].id).value)
    decreases |accounts|
  {
    if accounts != [] {
      var prefix := accounts[..|accounts| - 1];
      AccountsWrittenInOrder(up, token, userID, prefix);
      var prev := WalkAccounts(up, token, userID, prefix).log;
      var n := |prefix|;
      var log := WalkAccounts(up, token, userID, accounts).log;
      var last := AccountWrites(userID, accounts[n].id, up.balance(token, accounts[n].id).value);
      assert log == prev + last;
      forall i | 0 <= i < |accounts|
        ensures log[3 * i..3 * i + 3] == AccountWrites(userID, accounts[i].id, up.balance(token, accounts[i].id).value)
      {
        if i < n {
          assert log[3 * i..3 * i + 3] == prev[3 * i..3 * i + 3];
          assert prefix[i] == accounts[i];
        } else {
          assert log[3 * i..3 * i + 3] == last;
        }
      }
    }
  }

  /**
   * A balance error at account k ends the account loop: the accounts before
   * k are written, account k and the later ones are not.
   */
  lemma {:induction false} BalanceErrorStopsAccounts(
    up: Upstream, token: string, userID: string, accounts: seq<Account>, k: nat)
    requires k < |accounts|
    requires forall i :: 0 <= i < k ==> up.balance(token, accounts[i].id).Ok?
    requires up.balance(token, accounts[k].id).Err?
    ensures WalkAccounts(up, token, userID, accounts) == Walk(WalkAccounts(up, token, userID, accounts[..k]).log, true)
    decreases |accounts|
  {
    var prefix := accounts[..|accounts| - 1];
    if k < |accounts| - 1 {
      assert prefix[..k] == accounts[..k];
      assert prefix[k] == accounts[k];
      BalanceErrorStopsAccounts(up, token, userID, prefix, k);
    } else {
      assert prefix == accounts[..k];
    }
  }

  /**
   * A balance error also ends the token's work before its pots: the token's
   * log holds only the earlier accounts' writes, none for pots, and the walk
   * has panicked.
   */
  lemma BalanceErrorSkipsPots(up: Upstream, token: string, k: nat)
    requires up.identity(token).Ok? && up.accounts(token).Ok?
    requires k < |up.accounts(token).value|
    requires forall i :: 0 <= i < k ==> up.balance(token, up.accounts(token).value[i].id).Ok?
    requires up.balance(token, up.accounts(token).value[k].id).Err?
    ensures CollectToken(up, token).panicked
    ensures CollectToken(up, token).log
         == WalkAccounts(up, token, up.identity(token).value.userID, up.accounts(token).value[..k]).log
    ensures forall i :: 0 <= i < |CollectToken(up, token).log| ==> CollectToken(up, token).log[i].AccountWrite?
  {
    var userID := up.identity(token).value.userID;
    var accounts := up.accounts(token).value;
    BalanceErrorStopsAccounts(up, token, userID, accounts, k);
    WalkAccountsOnlyAccountWrites(up, token, userID, accounts[..k]);
  }

  /**
   * A failed account listing aborts before any write for the token; a failed
   * pot listing aborts after the token's account writes, with no pot write.
   */
  lemma ListErrorsAbort(up: Upstream, token: string)
    requires up.identity(token).Ok?
    ensures up.accounts(token).Err? ==> CollectToken(up, token) == Walk([], true)
    ensures var a := CollectAccounts(up, token, up.identity(token).value);
            !a.panicked && up.pots(token).Err? ==> CollectToken(up, token) == Walk(a.log, true)
  {
    var a := CollectAccounts(up, token, up.identity(token).value);
    if !a.panicked && up.pots(token).Err? {
      assert a.log + [] == a.log;
    }
  }

  // ---------------------------------------------------------------------
  // What the walk leaves in the registry.
  // ---------------------------------------------------------------------

  lemma {:induction false} ApplyAllConcat(r: Registry, first: seq<Write>, second: seq<Write>)
    ensures ApplyAll(r, first + second) == ApplyAll(ApplyAll(r, first), second)
    decreases |second|
  {
    if second == [] {
      assert first + second == first;
    } else {
      var all := first + second;
      var init := second[..|second| - 1];
      var last := second[|second| - 1];
      assert all[..|all| - 1] == first + init;
      assert all[|all| - 1] == last;
      ApplyAllConcat(r, first, init);
      calc {
        ApplyAll(r, all);
        Apply(ApplyAll(r, first + init), last);
        Apply(ApplyAll(ApplyAll(r, first), init), last);
        ApplyAll(ApplyAll(r, first), second);
      }
    }
  }

  /** The last value `log` writes to each series of one account gauge. */
  function LastAccountValues(log: seq<Write>, gauge: AccountGauge): map<AccountSeries, int>
    decreases |log|
  {
    if log == [] then map[]
    else
      var m := LastAccountValues(log[..|log| - 1], gauge);
      var w := log[|log| - 1];
      if w.AccountWrite? && w.gauge == gauge then m[w.account := w.value] else m
  }

  /** The last value `log` writes to each pot series. */
  function LastPotValues(log: seq<Write>): map<PotSeries, int>
    decreases |log|
  {
    if log == [] then map[]
    else
      var m := LastPotValues(log[..|log| - 1]);
      var w := log[|log| - 1];
      if w.PotWrite? then m[w.pot := w.value] else m
  }

  /** One account gauge after the writes of `log`, in order. */
  function WriteAllAccountGauge(m: map<AccountSeries, int>, gauge: AccountGauge, log: seq<Write>): map<AccountSeries, int>
    decreases |log|
  {
    if log == [] then m
    else WriteAccountGauge(WriteAllAccountGauge(m, gauge, log[..|log| - 1]), gauge, log[|log| - 1])
  }

  /** Applying a log to the registry applies it to each account gauge on its own. */
  lemma {:induction false} ApplyAllAccountVector(r: Registry, log: seq<Write>, gauge: AccountGauge)
    ensures AccountVector(ApplyAll(r, log), gauge) == WriteAllAccountGauge(AccountVector(r, gauge), gauge, log)
    decreases |log|
  {
    if log != [] {
      var init := log[..|log| - 1];
      ApplyAllAccountVector(r, init, gauge);
      ApplyAccountVector(ApplyAll(r, init), log[|log| - 1], gauge);
    }
  }

  /** Writing a log to an account gauge overrides it with the last value written to each of its series. */
  lemma {:induction false} WriteAllAccountGaugeOverrides(m: map<AccountSeries, int>, gauge: AccountGauge, log: seq<Write>)
    ensures WriteAllAccountGauge(m, gauge, log) == m + LastAccountValues(log, gauge)
    decreases |log|
  {
    if log != [] {
      var init := log[..|log| - 1];
      WriteAllAccountGaugeOverrides(m, gauge, init);
      var w := log[|log| - 1];
      if w.AccountWrite? && w.gauge == gauge {
        var last := LastAccountValues(init, gauge);
        assert (m + last)[w.account := w.value] == m + last[w.account := w.value];
      }
    }
  }

  /** Applying a log leaves an account gauge overridden by the last value written to each of its series. */
  lemma AccountGaugeOverrides(r: Registry, log: seq<Write>, gauge: AccountGauge)
    ensures AccountVector(ApplyAll(r, log), gauge) == AccountVector(r, gauge) + LastAccountValues(log, gauge)
  {
    ApplyAllAccountVector(r, log, gauge);
    WriteAllAccountGaugeOverrides(AccountVector(r, gauge), gauge, log);
  }

  /** Applying a log leaves the pot gauge overridden by the last value written to each pot series. */
  lemma {:induction false} PotGaugeOverrides(r: Registry, log: seq<Write>)
    ensures ApplyAll(r, log).potBalance == r.potBalance + LastPotValues(log)
    decreases |log|
  {
    if log != [] {
      var init := log[..|log| - 1];
      PotGaugeOverrides(r, init);
      var w := log[|log| - 1];
      if w.PotWrite? {
        var m := LastPotValues(init);
        assert (r.potBalance + m)[w.pot := w.value] == r.potBalance + m[w.pot := w.value];
      }
    }
  }

  /** The walk touches only the four account and pot gauges. */
  lemma {:induction false} WalkTouchesOnlyBalanceGauges(r: Registry, log: seq<Write>)
    ensures ApplyAll(r, log).transactionsAmountToday == r.transactionsAmountToday
    ensures ApplyAll(r, log).userLatestCollect == r.userLatestCollect
    ensures ApplyAll(r, log).accessTokenExpiry == r.accessTokenExpiry
    ensures ApplyAll(r, log).apiResponseCode == r.apiResponseCode
    decreases |log|
  {
    if log != [] {
      var init := log[..|log| - 1];
      WalkTouchesOnlyBalanceGauges(r, init);
    }
  }

  /**
   * Applying a log overrides each written series with the last value written
   * to it and leaves every other series, and every other vector, as it was.
   */
  lemma ApplyAllOverrides(r: Registry, log: seq<Write>)
    ensures ApplyAll(r, log)
         == r.(currentBalance := r.currentBalance + LastAccountValues(log, CurrentBalanceGauge),
               totalBalance := r.totalBalance + LastAccountValues(log, TotalBalanceGauge),
               spendToday := r.spendToday + LastAccountValues(log, SpendTodayGauge),
               potBalance := r.potBalance + LastPotValues(log))
  {
    AccountGaugeOverrides(r, log, CurrentBalanceGauge);
    AccountGaugeOverrides(r, log, TotalBalanceGauge);
    AccountGaugeOverrides(r, log, SpendTodayGauge);
    PotGaugeOverrides(r, log);
    WalkTouchesOnlyBalanceGauges(r, log);
  }

  /** Applying the same log twice leaves the registry as applying it once: gauges overwrite, they do not accumulate. */
  lemma ApplyAllIdempotent(r: Registry, log: seq<Write>)
    ensures ApplyAll(ApplyAll(r, log), log) == ApplyAll(r, log)
  {
    ApplyAllOverrides(r, log);
    ApplyAllOverrides(ApplyAll(r, log), log);
    UnionIdempotent(r.currentBalance, LastAccountValues(log, CurrentBalanceGauge));
    UnionIdempotent(r.totalBalance, LastAccountValues(log, TotalBalanceGauge));
    UnionIdempotent(r.spendToday, LastAccountValues(log, SpendTodayGauge));
    UnionIdempotent(r.potBalance, LastPotValues(log));
  }

  lemma UnionIdempotent<K>(m: map<K, int>, last: map<K, int>)
    ensures (m + last) + last == m + last
  {
  }

  /** Running the walk twice on the same upstream answers leaves the registry as running it once. */
  lemma CollectAllIdempotent(r: Registry, up: Upstream, tokens: seq<string>)
    ensures var log := CollectAll(up, tokens).log;
            ApplyAll(ApplyAll(r, log), log) == ApplyAll(r, log)
  {
    ApplyAllIdempotent(r, CollectAll(up, tokens).log);
  }

  /**
   * Each listed pot sets its series (user id, pot id, pot name) to its
   * balance; of several pots with the same series, the last one listed wins.
   */
  lemma {:induction false} PotsWritten(r: Registry, userID: string, pots: seq<Pot>)
    ensures forall i :: 0 <= i < |pots| && (forall j :: i < j < |pots| ==> pots[j].id != pots[i].id || pots[j].name != pots[i].name) ==>
              var s := PotSeries(userID, pots[i].id, pots[i].name);
              s in ApplyAll(r, PotWrites(userID, pots)).potBalance
              && ApplyAll(r, PotWrites(userID, pots)).potBalance[s] == pots[i].balance
    decreases |pots|
  {
    if pots != [] {
      var init := pots[..|pots| - 1];
      PotsWritten(r, userID, init);
      var log := PotWrites(userID, pots);
      assert log[..|log| - 1] == PotWrites(userID, init);
      forall i | 0 <= i < |pots| - 1
        ensures pots[i] == init[i]
      {
      }
    }
  }

  /**
   * One token with one account and one pot, collected into empty vectors,
   * gives exactly four series, all labelled with the identity's user id.
   */
  lemma OneAccountOnePotScenario(
    up: Upstream, token: string, identity: CallerIdentity, account: Account, b: Balance, pot: Pot)
    requires up.identity(token) == Ok(identity)
    requires up.accounts(token) == Ok([account])
    requires up.balance(token, account.id) == Ok(b)
    requires up.pots(token) == Ok([pot])
    ensures !CollectAll(up, [token]).panicked
    ensures ApplyAll(EmptyRegistry, CollectAll(up, [token]).log)
         == EmptyRegistry.(
              currentBalance := map[AccountSeries(identity.userID, account.id) := b.balance],
              totalBalance := map[AccountSeries(identity.userID, account.id) := b.totalBalance],
              spendToday := map[AccountSeries(identity.userID, account.id) := b.spendToday],
              potBalance := map[PotSeries(identity.userID, pot.id, pot.name) := pot.balance])
  {
    var s := AccountSeries(identity.userID, account.id);
    var ps := PotSeries(identity.userID, pot.id, pot.name);
    var log := AccountWrites(identity.userID, account.id, b) + [PotWrite(ps, pot.balance)];
    assert [account][..0] == [];
    assert [pot][..0] == [];
    assert WalkAccounts(up, token, identity.userID, [account]) == Walk(AccountWrites(identity.userID, account.id, b), false);
    assert PotWrites(identity.userID, [pot]) == [PotWrite(ps, pot.balance)];
    assert [token][..0] == [];
    assert CollectAll(up, [token]).log == log;
    var accountWrites := AccountWrites(identity.userID, account.id, b);
    ApplyAllConcat(EmptyRegistry, accountWrites, [PotWrite(ps, pot.balance)]);
    ApplyAccountWrites(EmptyRegistry, identity.userID, account.id, b);
    var r := ApplyAll(EmptyRegistry, accountWrites);
    assert [PotWrite(ps, pot.balance)][..0] == [];
    assert ApplyAll(EmptyRegistry, log) == Apply(r, PotWrite(ps, pot.balance));
  }

  // ---------------------------------------------------------------------
  // The Go functions, writing the package-level vectors in place.
  // A `true` result is a panic, which unwinds through every caller.
  // ---------------------------------------------------------------------

  method CollectPotMetrics(token: string, identity: CallerIdentity, up: Upstream, metrics: MetricVectors)
    returns (panicked: bool)
    modifies metrics
    ensures var w := CollectPots(up, token, identity);
            panicked == w.panicked && metrics.Value() == ApplyAll(old(metrics.Value()), w.log)
  {
    var listed := up.pots(token);
    if listed.Err? {
      return true;
    }
    var pots := listed.value;
    var i := 0;
    while i < |pots|
      invariant 0 <= i <= |pots|
      invariant metrics.Value() == ApplyAll(old(metrics.Value()), PotWrites(identity.userID, pots[..i]))
    {
      var pot := pots[i];
      ghost var before := metrics.Value();
      metrics.SetPotBalance(identity.userID, pot.id, pot.name, pot.balance);
      PotWriteIsSetter(before, identity.userID, pot.id, pot.name, pot.balance);
      assert pots[..i + 1][..i] == pots[..i];
      i := i + 1;
    }
    assert pots[..i] == pots;
    panicked := false;
  }

  method CollectAccountMetrics(token: string, identity: CallerIdentity, up: Upstream, metrics: MetricVectors)
    returns (panicked: bool)
    modifies metrics
    ensures var w := CollectAccounts(up, token, identity);
            panicked == w.panicked && metrics.Value() == ApplyAll(old(metrics.Value()), w.log)
  {
    var listed := up.accounts(token);
    if listed.Err? {
      return true;
    }
    var accounts := listed.value;
    var userID := identity.userID;
    var i := 0;
    while i < |accounts|
      invariant 0 <= i <= |accounts|
      invariant !WalkAccounts(up, token, userID, accounts[..i]).panicked
      invariant metrics.Value() == ApplyAll(old(metrics.Value()), WalkAccounts(up, token, userID, accounts[..i]).log)
    {
      var account := accounts[i];
      assert accounts[..i + 1][..i] == accounts[..i];
      var balance := up.balance(token, account.id);
      if balance.Err? {
        assert WalkAccounts(up, token, userID, accounts[..i + 1]).panicked;
        BalanceErrorPanics(up, token, userID, accounts, i);
        return true;
      }
      ghost var before := metrics.Value();
      var b := balance.value;
      metrics.SetCurrentBalance(userID, account.id, b.balance);
      metrics.SetTotalBalance(userID, account.id, b.totalBalance);
      metrics.SetSpendToday(userID, account.id, b.spendToday);
      ApplyAccountWrites(before, userID, account.id, b);
      ApplyAllConcat(old(metrics.Value()), WalkAccounts(up, token, userID, accounts[..i]).log,
                     AccountWrites(userID, account.id, b));
      i := i + 1;
    }
    assert accounts[..i] == accounts;
    panicked := false;
  }

  method CollectAllMetrics(accessTokens: seq<string>, up: Upstream, metrics: MetricVectors)
    returns (panicked: bool)
    modifies metrics
    ensures var w := CollectAll(up, accessTokens);
            panicked == w.panicked && metrics.Value() == ApplyAll(old(metrics.Value()), w.log)
  {
    var i := 0;
    while i < |accessTokens|
      invariant 0 <= i <= |accessTokens|
      invariant !CollectAll(up, accessTokens[..i]).panicked
      invariant metrics.Value() == ApplyAll(old(metrics.Value()), CollectAll(up, accessTokens[..i]).log)
    {
      var token := accessTokens[i];
      ghost var prev := CollectAll(up, accessTokens[..i]);
      ghost var step := CollectToken(up, token);
      CollectAllStep(up, accessTokens, i);
      ApplyThen(old(metrics.Value()), prev, step);
      var identity := up.identity(token);
      if identity.Err? {
        assert step.log == [];
        PanicIsFinal(up, accessTokens, i + 1);
        return true;
      }
      ghost var mid := metrics.Value();
      ghost var accounts := CollectAccounts(up, token, identity.value);
      ghost var pots := CollectPots(up, token, identity.value);
      assert step == Then(accounts, pots);
      panicked := CollectAccountMetrics(token, identity.value, up, metrics);
      if panicked {
        assert step == accounts;
        PanicIsFinal(up, accessTokens, i + 1);
        return;
      }
      panicked := CollectPotMetrics(token, identity.value, up, metrics);
      ApplyThen(mid, accounts, pots);
      if panicked {
        PanicIsFinal(up, accessTokens, i + 1);
        return;
      }
      i := i + 1;
    }
    assert accessTokens[..i] == accessTokens;
    panicked := false;
  }

  /** Helper for the token loop: one more token chains its walk after the prefix's. */
  lemma CollectAllStep(up: Upstream, tokens: seq<string>, i: nat)
    requires i < |tokens|
    ensures CollectAll(up, tokens[..i + 1]) == Then(CollectAll(up, tokens[..i]), CollectToken(up, tokens[i]))
  {
    assert tokens[..i + 1][..i] == tokens[..i];
  }

  /** Helper for the token loop: applying a chained walk applies its two parts in turn. */
  lemma ApplyThen(r: Registry, w: Walk, next: Walk)
    requires !w.panicked
    ensures Then(w, next).panicked == next.panicked
    ensures ApplyAll(r, Then(w, next).log) == ApplyAll(ApplyAll(r, w.log), next.log)
  {
    ApplyAllConcat(r, w.log, next.log);
  }

  /** Helper for the account loop: a balance error at account k panics the loop over accounts[..k+1] and hence over all. */
  lemma {:induction false} BalanceErrorPanics(up: Upstream, token: string, userID: string, accounts: seq<Account>, k: nat)
    requires k < |accounts|
    requires WalkAccounts(up, token, userID, accounts[..k + 1]).panicked
    ensures WalkAccounts(up, token, userID, accounts) == WalkAccounts(up, token, userID, accounts[..k + 1])
    decreases |accounts| - k
  {
    if k + 1 < |accounts| {
      var init := accounts[..|accounts| - 1];
      assert init[..k + 1] == accounts[..k + 1];
      BalanceErrorPanics(up, token, userID, init, k);
    } else {
      assert accounts[..k + 1] == accounts;
    }
  }

  /** Helper for the account loop: the three setters perform the account's three writes. */
  lemma ApplyAccountWrites(r: Registry, userID: string, accountID: string, b: Balance)
    ensures ApplyAll(r, AccountWrites(userID, accountID, b))
         == WithSpendToday(WithTotalBalance(WithCurrentBalance(r, userID, accountID, b.balance),
                                            userID, accountID, b.totalBalance),
                           userID, accountID, b.spendToday)
  {
    var log := AccountWrites(userID, accountID, b);
    assert log[..2][..1] == log[..1];
    assert log[..1][..0] == [];
    var r1 := Apply(r, log[0]);
    var r2 := Apply(r1, log[1]);
    assert ApplyAll(r, log[..1]) == r1;
    assert ApplyAll(r, log[..2]) == r2;
    assert ApplyAll(r, log) == Apply(r2, log[2]) by { assert log[..3] == log; }
    CurrentBalanceWriteIsSetter(r, userID, accountID, b.balance);
    TotalBalanceWriteIsSetter(r1, userID, accountID, b.totalBalance);
    SpendTodayWriteIsSetter(r2, userID, accountID, b.spendToday);
  }
}
