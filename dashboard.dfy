/** The main dashboard: the statistic cards built from the stats record with
    their defaults, the paged transaction list, and the four requests whose
    results are taken all together or not at all. */
module Dashboard {
  import opened Wrappers
  import opened Js
  import Pagination

  const TransactionsPerPage: int := 10
  const Zero: JsValue := Num(0.0)

  /** A destructuring default `{ k = d } = obj`: it applies to undefined
      only, not to null. */
  function Default(v: JsValue, d: JsValue): (r: JsValue)
    ensures v == Undefined ==> r == d
    ensures v != Undefined ==> r == v
  {
    if v == Undefined then d else v
  }

  /** The six totals destructured from the stats record, with their titles. */
  const TotalKeys: seq<string> :=
    ["totalTravel", "totalRequests", "totalAccepted", "totalCancelled", "totalDelivered", "totalConsignments"]
  const TotalTitles: seq<string> :=
    ["Total Travel", "Total Requests", "Accepted Requests", "Cancelled Requests", "Delivered", "Total Consignments"]

  /** The six fields read from `daily` and from `monthly`, with their titles. */
  const PeriodKeys: seq<string> :=
    ["totalRequests", "accepted", "cancelled", "delivered", "totalConsignments", "totalTravel"]
  const DailyTitles: seq<string> :=
    ["Daily Requests", "Daily Accepted", "Daily Cancelled", "Daily Delivered", "Daily Consignments", "Daily Travel"]
  const MonthlyTitles: seq<string> :=
    ["Monthly Requests", "Monthly Accepted", "Monthly Cancelled", "Monthly Delivered", "Monthly Consignments", "Monthly Travel"]

  /** The titles of all the cards, in the order they are shown. */
  const CardTitles: seq<string> := TotalTitles + DailyTitles + MonthlyTitles

  datatype Card = Card(title: string, value: JsValue)

  /** `stats ?? {}`, the record the totals are destructured from. */
  function StatsRecord(stats: JsValue): (r: JsValue)
    ensures !Nullish(r)
    ensures Nullish(stats) ==> r == Obj(map[])
  {
    Coalesce(stats, Obj(map[]))
  }

  /** `daily` or `monthly` after destructuring: `{}` when absent. */
  function Period(stats: JsValue, key: string): JsValue {
    Default(Read(StatsRecord(stats), key), Obj(map[]))
  }

  /** `allCards`: reading a field of a `daily` or `monthly` that is null
      throws (None). */
  function AllCards(stats: JsValue): (cards: Option<seq<Card>>)
    ensures cards.None? <==> Read(StatsRecord(stats), "daily") == Null || Read(StatsRecord(stats), "monthly") == Null
    ensures cards.Some? ==> |cards.value| == |CardTitles| == 18
    ensures cards.Some? ==> forall i :: 0 <= i < |CardTitles| ==> cards.value[i].title == CardTitles[i]
  {
    var s := StatsRecord(stats);
    var daily := Period(stats, "daily");
    var monthly := Period(stats, "monthly");
    if Nullish(daily) || Nullish(monthly) then None
    else
      Some(seq(6, i requires 0 <= i < 6 => Card(TotalTitles[i], Default(Read(s, TotalKeys[i]), Zero)))
           + seq(6, i requires 0 <= i < 6 => Card(DailyTitles[i], Coalesce(Read(daily, PeriodKeys[i]), Zero)))
           + seq(6, i requires 0 <= i < 6 => Card(MonthlyTitles[i], Coalesce(Read(monthly, PeriodKeys[i]), Zero))))
  }

  /** `card.value ?? 0`, what a card shows. */
  function Shown(card: Card): (v: JsValue)
    ensures !Nullish(v)
    ensures !Nullish(card.value) ==> v == card.value
  {
    Coalesce(card.value, Zero)
  }

  /** Without stats every card holds 0. */
  lemma NoStatsAllZero(stats: JsValue)
    requires Nullish(stats)
    ensures AllCards(stats).Some?
    ensures forall i :: 0 <= i < 18 ==> AllCards(stats).value[i].value == Zero
  {
    assert StatsRecord(stats) == Obj(map[]);
  }

  /** A total missing from the record holds 0; a total the record holds
      (even null) is taken as it is. */
  lemma TotalCards(stats: JsValue, i: nat)
    requires AllCards(stats).Some? && i < 6
    ensures var v := Read(StatsRecord(stats), TotalKeys[i]);
            AllCards(stats).value[i].value == (if v == Undefined then Zero else v)
  {
  }

  /** Each daily and monthly card holds its field of the period record, or
      0 when that field is null or missing. */
  lemma PeriodCards(stats: JsValue, i: nat)
    requires AllCards(stats).Some? && i < 6
    ensures AllCards(stats).value[6 + i].value == Coalesce(Read(Period(stats, "daily"), PeriodKeys[i]), Zero)
    ensures AllCards(stats).value[12 + i].value == Coalesce(Read(Period(stats, "monthly"), PeriodKeys[i]), Zero)
    ensures !Nullish(AllCards(stats).value[6 + i].value) && !Nullish(AllCards(stats).value[12 + i].value)
  {
  }

  /** A total the record holds as null is the one card value that can be
      null; it is shown as 0. */
  lemma NullTotalShownAsZero(stats: JsValue, i: nat)
    requires AllCards(stats).Some? && i < 6
    requires Read(StatsRecord(stats), TotalKeys[i]) == Null
    ensures AllCards(stats).value[i].value == Null
    ensures Shown(AllCards(stats).value[i]) == Zero
  {
  }

  /** What the transaction history request gives back: `total` and `data`. */
  datatype TransactionPage = TransactionPage(total: int, data: JsValue)

  class Page {
    var stats: JsValue
    var totalUsers: JsValue
    var totalEarnings: JsValue
    var transactionHistory: JsValue
    var totalTransactions: int
    var currentPage: int

    constructor ()
      ensures stats == Null && totalUsers == Zero && totalEarnings == Zero
      ensures transactionHistory == Arr([]) && totalTransactions == 0 && currentPage == 1
    {
      stats := Null;
      totalUsers := Zero;
      totalEarnings := Zero;
      transactionHistory := Arr([]);
      totalTransactions := 0;
      currentPage := 1;
    }

    function TotalPages(): (pages: int)
      reads this
      ensures TransactionsPerPage * (pages - 1) < totalTransactions <= TransactionsPerPage * pages
    {
      Pagination.TotalPages(totalTransactions, TransactionsPerPage)
    }

    function Cards(): Option<seq<Card>>
      reads this
    {
      AllCards(stats)
    }

    method Prev()
      modifies this`currentPage
      ensures currentPage == Pagination.PrevPage(old(currentPage))
    {
      currentPage := Pagination.PrevPage(currentPage);
    }

    method Next()
      modifies this`currentPage
      ensures currentPage == Pagination.NextPage(old(currentPage), TotalPages())
    {
      currentPage := Pagination.NextPage(currentPage, TotalPages());
    }

    method GoTo(page: int)
      modifies this`currentPage
      ensures currentPage == page
    {
      currentPage := page;
    }

    /** `fetchStats`: the four results are taken together only when all four
        requests succeed; any failure is caught and changes nothing. */
    method FetchStats(statsRes: Response<JsValue>, usersRes: Response<JsValue>,
                      earningsRes: Response<JsValue>, transactionRes: Response<TransactionPage>)
      modifies this`stats, this`totalUsers, this`totalEarnings, this`transactionHistory, this`totalTransactions
      ensures statsRes.Ok? && usersRes.Ok? && earningsRes.Ok? && transactionRes.Ok? ==>
                totalTransactions == transactionRes.body.total && stats == statsRes.body &&
                totalUsers == usersRes.body && totalEarnings == earningsRes.body &&
                transactionHistory == transactionRes.body.data
      ensures !(statsRes.Ok? && usersRes.Ok? && earningsRes.Ok? && transactionRes.Ok?) ==>
                stats == old(stats) && totalUsers == old(totalUsers) && totalEarnings == old(totalEarnings) &&
                transactionHistory == old(transactionHistory) && totalTransactions == old(totalTransactions)
    {
      if statsRes.Ok? && usersRes.Ok? && earningsRes.Ok? && transactionRes.Ok? {
        totalTransactions := transactionRes.body.total;
        stats := statsRes.body;
        totalUsers := usersRes.body;
        totalEarnings := earningsRes.body;
        transactionHistory := transactionRes.body.data;
      }
    }
  }
}
