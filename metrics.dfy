/**
 * The exporter's eight Prometheus vectors and the functions that write them
 * (monzo_metrics.go).
 *
 * A gauge or counter vector is a map from its label values to the series'
 * current value. `Registry` is the value of all eight vectors at one moment;
 * `MetricVectors` is the package-level state the Go setters mutate, and each
 * of its methods is specified by the pure `With...` function of the same
 * setter. Metric values are kept as integers (the source converts to
 * `float64` when storing).
 */
module MonzoMetrics {

  import opened MonzoTypes

  /** The eight vectors, one constructor each. */
  datatype Metric =
    | CurrentBalance
    | TotalBalance
    | SpendToday
    | TransactionsAmountToday
    | PotBalance
    | UserLatestCollect
    | AccessTokenExpiry
    | APIResponseCode

  // Label tuples, one per label set; field names follow the label names.

  /** Labels `user_id`, `account_id`. */
  datatype AccountSeries = AccountSeries(userID: string, accountID: string)

  /** Labels `user_id`, `account_id`, `description`, `category`. */
  datatype TransactionSeries = TransactionSeries(
    userID: string, accountID: string, description: string, category: string)

  /** Labels `user_id`, `pot_id`, `pot_name`. */
  datatype PotSeries = PotSeries(userID: string, potID: string, potName: string)

  /** Labels `response_code`, `endpoint`. */
  datatype ResponseCodeSeries = ResponseCodeSeries(responseCode: string, endpoint: string)

  /** The per-(description, category) total handed to the transactions setter. */
  datatype TransactionsSummary = TransactionsSummary(description: string, category: string, amount: int)

  /** The value of all eight vectors; `user_id` alone keys the two per-user gauges. */
  datatype Registry = Registry(
    currentBalance: map<AccountSeries, int>,
    totalBalance: map<AccountSeries, int>,
    spendToday: map<AccountSeries, int>,
    transactionsAmountToday: map<TransactionSeries, int>,
    potBalance: map<PotSeries, int>,
    userLatestCollect: map<string, int>,
    accessTokenExpiry: map<string, int>,
    apiResponseCode: map<ResponseCodeSeries, nat>)

  /** Every vector as it is created: no series at all. */
  const EmptyRegistry := Registry(map[], map[], map[], map[], map[], map[], map[], map[])

  /**
   * `after` is `before` with series `k` now holding `v`: it gains at most
   * that one series and every other series keeps its value.
   */
  ghost predicate Overwrites<K>(before: map<K, int>, after: map<K, int>, k: K, v: int) {
    && after.Keys == before.Keys + {k}
    && after[k] == v
    && forall k' :: k' in before && k' != k ==> after[k'] == before[k']
  }

  /** Every vector other than `m` is identical in `r` and `s`. */
  ghost predicate AgreeExcept(r: Registry, s: Registry, m: Metric) {
    && (m == CurrentBalance || r.currentBalance == s.currentBalance)
    && (m == TotalBalance || r.totalBalance == s.totalBalance)
    && (m == SpendToday || r.spendToday == s.spendToday)
    && (m == TransactionsAmountToday || r.transactionsAmountToday == s.transactionsAmountToday)
    && (m == PotBalance || r.potBalance == s.potBalance)
    && (m == UserLatestCollect || r.userLatestCollect == s.userLatestCollect)
    && (m == AccessTokenExpiry || r.accessTokenExpiry == s.accessTokenExpiry)
    && (m == APIResponseCode || r.apiResponseCode == s.apiResponseCode)
  }

  // ---------------------------------------------------------------------
  // The setters, as transitions of the registry value.
  // ---------------------------------------------------------------------

  function WithCurrentBalance(r: Registry, userID: string, accountID: string, balance: int): (s: Registry)
    ensures Overwrites(r.currentBalance, s.currentBalance, AccountSeries(userID, accountID), balance)
    ensures AgreeExcept(r, s, CurrentBalance)
  {
    r.(currentBalance := r.currentBalance[AccountSeries(userID, accountID) := balance])
  }

  function WithTotalBalance(r: Registry, userID: string, accountID: string, balance: int): (s: Registry)
    ensures Overwrites(r.totalBalance, s.totalBalance, AccountSeries(userID, accountID), balance)
    ensures AgreeExcept(r, s, TotalBalance)
  {
    r.(totalBalance := r.totalBalance[AccountSeries(userID, accountID) := balance])
  }

  function WithSpendToday(r: Registry, userID: string, accountID: string, spend: int): (s: Registry)
    ensures Overwrites(r.spendToday, s.spendToday, AccountSeries(userID, accountID), spend)
    ensures AgreeExcept(r, s, SpendToday)
  {
    r.(spendToday := r.spendToday[AccountSeries(userID, accountID) := spend])
  }

  function WithPotBalance(r: Registry, userID: string, potID: string, potName: string, balance: int): (s: Registry)
    ensures Overwrites(r.potBalance, s.potBalance, PotSeries(userID, potID, potName), balance)
    ensures AgreeExcept(r, s, PotBalance)
  {
    r.(potBalance := r.potBalance[PotSeries(userID, potID, potName) := balance])
  }

  /** `now` is the unix time the source reads from the clock. */
  function WithUserLatestCollect(r: Registry, userID: string, now: int): (s: Registry)
    ensures Overwrites(r.userLatestCollect, s.userLatestCollect, userID, now)
    ensures AgreeExcept(r, s, UserLatestCollect)
  {
    r.(userLatestCollect := r.userLatestCollect[userID := now])
  }

  /** `expiryTime` is the expiry's unix time in seconds. */
  function WithAccessTokenExpiry(r: Registry, userID: string, expiryTime: int): (s: Registry)
    ensures Overwrites(r.accessTokenExpiry, s.accessTokenExpiry, userID, expiryTime)
    ensures AgreeExcept(r, s, AccessTokenExpiry)
  {
    r.(accessTokenExpiry := r.accessTokenExpiry[userID := expiryTime])
  }

  function WithTransactionsAmountToday(
    r: Registry, userID: string, accountID: string, summary: TransactionsSummary): (s: Registry)
    ensures Overwrites(
              r.transactionsAmountToday, s.transactionsAmountToday,
              TransactionSeries(userID, accountID, summary.description, summary.category),
              summary.amount)
    ensures AgreeExcept(r, s, TransactionsAmountToday)
  {
    var k := TransactionSeries(userID, accountID, summary.description, summary.category);
    r.(transactionsAmountToday := r.transactionsAmountToday[k := summary.amount])
  }

  /** Every series of the transactions vector is deleted. */
  function WithTransactionsReset(r: Registry): (s: Registry)
    ensures s.transactionsAmountToday.Keys == {}
    ensures AgreeExcept(r, s, TransactionsAmountToday)
  {
    r.(transactionsAmountToday := map[])
  }

  /** The counter's current value for a series; a series never incremented reads 0. */
  function Count(r: Registry, k: ResponseCodeSeries): nat {
    if k in r.apiResponseCode then r.apiResponseCode[k] else 0
  }

  /** The series `IncMonzoAPIResponseCode(endpoint, responseCode)` increments. */
  function CodeSeries(endpoint: string, responseCode: int): ResponseCodeSeries {
    ResponseCodeSeries(DecimalString(responseCode), endpoint)
  }

  function WithIncrement(r: Registry, endpoint: string, responseCode: int): (s: Registry)
    ensures CodeSeries(endpoint, responseCode) in s.apiResponseCode
    ensures Count(s, CodeSeries(endpoint, responseCode)) == Count(r, CodeSeries(endpoint, responseCode)) + 1
    ensures s.apiResponseCode.Keys == r.apiResponseCode.Keys + {CodeSeries(endpoint, responseCode)}
    ensures forall k :: k != CodeSeries(endpoint, responseCode) ==> Count(s, k) == Count(r, k)
    ensures AgreeExcept(r, s, APIResponseCode)
  {
    var k := CodeSeries(endpoint, responseCode);
    r.(apiResponseCode := r.apiResponseCode[k := Count(r, k) + 1])
  }

  // ---------------------------------------------------------------------
  // Properties of the setters.
  // ---------------------------------------------------------------------

  /** Setting a current-balance series twice to the same value is the same as setting it once. */
  lemma CurrentBalanceSetIdempotent(r: Registry, userID: string, accountID: string, v: int)
    ensures WithCurrentBalance(WithCurrentBalance(r, userID, accountID, v), userID, accountID, v)
         == WithCurrentBalance(r, userID, accountID, v)
  {
  }

  /** Setting a total-balance series twice to the same value is the same as setting it once. */
  lemma TotalBalanceSetIdempotent(r: Registry, userID: string, accountID: string, v: int)
    ensures WithTotalBalance(WithTotalBalance(r, userID, accountID, v), userID, accountID, v)
         == WithTotalBalance(r, userID, accountID, v)
  {
  }

  /** Setting a spend-today series twice to the same value is the same as setting it once. */
  lemma SpendTodaySetIdempotent(r: Registry, userID: string, accountID: string, v: int)
    ensures WithSpendToday(WithSpendToday(r, userID, accountID, v), userID, accountID, v)
         == WithSpendToday(r, userID, accountID, v)
  {
  }

  /** Setting a pot series twice to the same value is the same as setting it once. */
  lemma PotBalanceSetIdempotent(r: Registry, userID: string, potID: string, potName: string, v: int)
    ensures WithPotBalance(WithPotBalance(r, userID, potID, potName, v), userID, potID, potName, v)
         == WithPotBalance(r, userID, potID, potName, v)
  {
  }

  /** A gauge keeps only the last value written: a second set replaces the first, nothing accumulates. */
  lemma GaugeLastWriteWins(r: Registry, userID: string, accountID: string, v1: int, v2: int)
    ensures WithCurrentBalance(WithCurrentBalance(r, userID, accountID, v1), userID, accountID, v2)
         == WithCurrentBalance(r, userID, accountID, v2)
  {
  }

  /** The counter, unlike a gauge, accumulates: two increments raise the series by two. */
  lemma IncrementTwiceAddsTwo(r: Registry, endpoint: string, responseCode: int)
    ensures Count(WithIncrement(WithIncrement(r, endpoint, responseCode), endpoint, responseCode),
                  CodeSeries(endpoint, responseCode))
         == Count(r, CodeSeries(endpoint, responseCode)) + 2
  {
  }

  /** Distinct response codes are counted in distinct series, whatever the endpoint. */
  lemma DistinctCodesDistinctSeries(endpoint: string, code1: int, code2: int)
    requires code1 != code2
    ensures CodeSeries(endpoint, code1) != CodeSeries(endpoint, code2)
  {
    DecimalRoundTrip(code1);
    DecimalRoundTrip(code2);
  }

  /** Incrementing one code's series never moves the count of another code. */
  lemma IncrementLeavesOtherCodes(r: Registry, endpoint: string, code: int, other: int)
    requires code != other
    ensures Count(WithIncrement(r, endpoint, code), CodeSeries(endpoint, other))
         == Count(r, CodeSeries(endpoint, other))
  {
    DistinctCodesDistinctSeries(endpoint, code, other);
  }

  // ---------------------------------------------------------------------
  // The `%d` rendering of the response-code label.
  // ---------------------------------------------------------------------

  function Digit(d: nat): (c: char)
    requires d < 10
    ensures '0' <= c <= '9' && c as int - '0' as int == d
  {
    ('0' as int + d) as char
  }

  predicate IsDigits(s: string) {
    forall i :: 0 <= i < |s| ==> '0' <= s[i] <= '9'
  }

  /** The decimal digits of `n`, most significant first, without leading zeros. */
  function NatDecimal(n: nat): (s: string)
    ensures |s| > 0 && IsDigits(s)
    ensures n > 0 ==> s[0] != '0'
    decreases n
  {
    if n < 10 then [Digit(n)] else NatDecimal(n / 10) + [Digit(n % 10)]
  }

  /** Go's `fmt.Sprintf("%d", n)`: a minus sign before the digits of a negative number. */
  function DecimalString(n: int): (s: string)
    ensures |s| > 0
    ensures (s[0] == '-') <==> n < 0
  {
    if n < 0 then "-" + NatDecimal(-n) else NatDecimal(n)
  }

  /** The number a string of decimal digits denotes. */
  function DigitsValue(s: string): nat
    requires IsDigits(s)
  {
    if s == [] then 0
    else DigitsValue(s[..|s| - 1]) * 10 + (s[|s| - 1] as int - '0' as int)
  }

  /** Reads back an optionally signed decimal; `None` for anything else. */
  function ParseDecimal(s: string): Option<int> {
    if |s| > 1 && s[0] == '-' && IsDigits(s[1..]) then Some(0 - DigitsValue(s[1..]) as int)
    else if |s| > 0 && IsDigits(s) then Some(DigitsValue(s))
    else None
  }

  lemma {:induction false} NatDecimalValue(n: nat)
    ensures DigitsValue(NatDecimal(n)) == n
    decreases n
  {
    if n >= 10 {
      var prefix := NatDecimal(n / 10);
      var s := prefix + [Digit(n % 10)];
      assert s[..|s| - 1] == prefix;
      NatDecimalValue(n / 10);
    }
  }

  /** Reading the rendered label back gives the code: the rendering loses nothing. */
  lemma DecimalRoundTrip(n: int)
    ensures ParseDecimal(DecimalString(n)) == Some(n)
  {
    var s := DecimalString(n);
    if n < 0 {
      assert s[1..] == NatDecimal(-n);
      NatDecimalValue(-n);
      assert |s| > 1 && s[0] == '-' && IsDigits(s[1..]);
    } else {
      NatDecimalValue(n);
      assert s == NatDecimal(n) && s[0] != '-';
    }
  }

  // ---------------------------------------------------------------------
  // The package-level vectors, mutated in place by the setters.
  // ---------------------------------------------------------------------

  class MetricVectors {
    var currentBalance: map<AccountSeries, int>
    var totalBalance: map<AccountSeries, int>
    var spendToday: map<AccountSeries, int>
    var transactionsAmountToday: map<TransactionSeries, int>
    var potBalance: map<PotSeries, int>
    var userLatestCollect: map<string, int>
    var accessTokenExpiry: map<string, int>
    var apiResponseCode: map<ResponseCodeSeries, nat>

    /** The package-level initialisation: each vector starts with no series. */
    constructor ()
      ensures Value() == EmptyRegistry
    {
      currentBalance, totalBalance, spendToday := map[], map[], map[];
      transactionsAmountToday, potBalance := map[], map[];
      userLatestCollect, accessTokenExpiry, apiResponseCode := map[], map[], map[];
    }

    function Value(): Registry
      reads this
    {
      Registry(currentBalance, totalBalance, spendToday, transactionsAmountToday,
               potBalance, userLatestCollect, accessTokenExpiry, apiResponseCode)
    }

    method SetCurrentBalance(userID: string, accountID: string, balance: int)
      modifies this
      ensures Value() == WithCurrentBalance(old(Value()), userID, accountID, balance)
    {
      currentBalance := currentBalance[AccountSeries(userID, accountID) := balance];
    }

    method SetTotalBalance(userID: string, accountID: string, balance: int)
      modifies this
      ensures Value() == WithTotalBalance(old(Value()), userID, accountID, balance)
    {
      totalBalance := totalBalance[AccountSeries(userID, accountID) := balance];
    }

    method SetSpendToday(userID: string, accountID: string, spend: int)
      modifies this
      ensures Value() == WithSpendToday(old(Value()), userID, accountID, spend)
    {
      spendToday := spendToday[AccountSeries(userID, accountID) := spend];
    }

    method SetPotBalance(userID: string, potID: string, potName: string, balance: int)
      modifies this
      ensures Value() == WithPotBalance(old(Value()), userID, potID, potName, balance)
    {
      potBalance := potBalance[PotSeries(userID, potID, potName) := balance];
    }

    method SetUserLatestCollect(userID: string, now: int)
      modifies this
      ensures Value() == WithUserLatestCollect(old(Value()), userID, now)
    {
      userLatestCollect := userLatestCollect[userID := now];
    }

    method SetAccessTokenExpiry(userID: string, expiryTime: int)
      modifies this
      ensures Value() == WithAccessTokenExpiry(old(Value()), userID, expiryTime)
    {
      accessTokenExpiry := accessTokenExpiry[userID := expiryTime];
    }

    method IncMonzoAPIResponseCode(endpoint: string, responseCode: int)
      modifies this
      ensures Value() == WithIncrement(old(Value()), endpoint, responseCode)
    {
      var k := CodeSeries(endpoint, responseCode);
      var n := if k in apiResponseCode then apiResponseCode[k] else 0;
      apiResponseCode := apiResponseCode[k := n + 1];
    }

    method SetTransactionsAmountToday(userID: string, accountID: string, summary: TransactionsSummary)
      modifies this
      ensures Value() == WithTransactionsAmountToday(old(Value()), userID, accountID, summary)
    {
      var k := TransactionSeries(userID, accountID, summary.description, summary.category);
      transactionsAmountToday := transactionsAmountToday[k := summary.amount];
    }

    method ResetTransactionsAmountToday()
      modifies this
      ensures Value() == WithTransactionsReset(old(Value()))
    {
      transactionsAmountToday := map[];
    }
  }
}
