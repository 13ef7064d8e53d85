/**
 * One collection cycle of the exporter (cmd/main.go): list the seat holders,
 * fetch each one's premium-request usage, turn every usage item into a
 * metric entry, and publish the entries as a fresh snapshot of three gauge
 * vectors.
 */
module Exporter {
  import opened Wrappers
  import opened Records
  import opened GitHub

  /** The label set of a series: {user, sku, model, enterprise}. */
  datatype Labels = Labels(user: string, sku: string, model: string, enterprise: string)

  /** metricEntry: the labels and the three values published for one usage item. */
  datatype MetricEntry = MetricEntry(labels: Labels, grossQuantity: Float64, grossAmount: Float64, discountAmount: Float64)

  /** The three gauge vectors: request amount, gross cost and discount. */
  datatype Metric = RequestAmount | RequestCostGross | RequestCostDiscount

  /** The value an entry sets in the gauge vector of metric m. */
  function Value(e: MetricEntry, m: Metric): Float64
  {
    match m
    case RequestAmount => e.grossQuantity
    case RequestCostGross => e.grossAmount
    case RequestCostDiscount => e.discountAmount
  }

  /** The entry for one usage item of user `login`. */
  function EntryOf(enterprise: string, login: string, item: UsageItem): MetricEntry
  {
    MetricEntry(Labels(login, item.sku, item.model, enterprise), item.grossQuantity, item.grossAmount, item.discountAmount)
  }

  /** The entries for the first n usage items of user `login`, in item order. */
  function UserEntries(enterprise: string, login: string, items: seq<UsageItem>, n: nat): (es: seq<MetricEntry>)
    requires n <= |items|
    ensures |es| == n
  {
    if n == 0 then [] else UserEntries(enterprise, login, items, n - 1) + [EntryOf(enterprise, login, items[n - 1])]
  }

  /** What `get` returns for the usage of each of the first n logins, in login order. */
  function UsageResults(usage: nat -> Call<UsageResponse>, n: nat): (results: seq<Result<UsageResponse, GetError>>)
    ensures |results| == n
  {
    if n == 0 then [] else UsageResults(usage, n - 1) + [FetchResult(usage(n - 1))]
  }

  lemma {:induction false} UsageResultsAt(usage: nat -> Call<UsageResponse>, n: nat, k: nat)
    requires k < n
    ensures UsageResults(usage, n)[k] == FetchResult(usage(k))
  {
    if k < n - 1 {
      UsageResultsAt(usage, n - 1, k);
    }
  }

  /**
   * The entries collect builds from the first n logins: the entries of each
   * user whose usage was fetched, in login order; a user whose fetch failed
   * contributes none.
   */
  function Entries(enterprise: string, logins: seq<string>, usages: seq<Result<UsageResponse, GetError>>, n: nat): (es: seq<MetricEntry>)
    requires n <= |logins| == |usages|
    ensures |es| == FetchedItems(usages, n)
  {
    if n == 0 then []
    else
      Entries(enterprise, logins, usages, n - 1)
      + match usages[n - 1]
        case Success(u) => UserEntries(enterprise, logins[n - 1], u.usageItems, |u.usageItems|)
        case Failure(_) => []
  }

  /** How many usage items the first n logins have in total, counting only those whose usage was fetched. */
  function FetchedItems(usages: seq<Result<UsageResponse, GetError>>, n: nat): nat
    requires n <= |usages|
  {
    if n == 0 then 0
    else
      FetchedItems(usages, n - 1)
      + match usages[n - 1]
        case Success(u) => |u.usageItems|
        case Failure(_) => 0
  }

  /** The series of gauge vector m after the first n entries were set into an empty vector: the later entry wins. */
  function Series(entries: seq<MetricEntry>, n: nat, m: Metric): (s: map<Labels, Float64>)
    requires n <= |entries|
    ensures |s| <= n
  {
    if n == 0 then map[] else Series(entries, n - 1, m)[entries[n - 1].labels := Value(entries[n - 1], m)]
  }

  /** The entry for item i of user `login` is at index i of that user's entries. */
  lemma {:induction false} UserEntriesAt(enterprise: string, login: string, items: seq<UsageItem>, n: nat, i: nat)
    requires i < n <= |items|
    ensures UserEntries(enterprise, login, items, n)[i] == EntryOf(enterprise, login, items[i])
  {
    if i < n - 1 {
      UserEntriesAt(enterprise, login, items, n - 1, i);
    }
  }

  /**
   * Entries come in login order, then item order: item i of the k-th login,
   * when its usage was fetched, is at index |Entries(.., k)| + i, and the
   * entries of later logins come after all of that user's entries.
   */
  lemma {:induction false} EntriesAt(enterprise: string, logins: seq<string>, usages: seq<Result<UsageResponse, GetError>>, n: nat, k: nat, i: nat)
    requires n <= |logins| == |usages| && k < n
    requires usages[k].Success? && i < |usages[k].value.usageItems|
    ensures |Entries(enterprise, logins, usages, k)| + i < |Entries(enterprise, logins, usages, n)|
    ensures Entries(enterprise, logins, usages, n)[|Entries(enterprise, logins, usages, k)| + i]
      == EntryOf(enterprise, logins[k], usages[k].value.usageItems[i])
  {
    var items := usages[k].value.usageItems;
    if k == n - 1 {
      UserEntriesAt(enterprise, logins[k], items, |items|, i);
    } else {
      EntriesAt(enterprise, logins, usages, n - 1, k, i);
    }
  }

  /**
   * Conversely, every entry is the entry of one usage item of a fetched
   * login, at the index EntriesAt gives it: together, one entry per item.
   */
  lemma {:induction false} EntryOrigin(enterprise: string, logins: seq<string>, usages: seq<Result<UsageResponse, GetError>>, n: nat, j: nat)
    requires n <= |logins| == |usages| && j < |Entries(enterprise, logins, usages, n)|
    ensures exists k, i ::
      && 0 <= k < n && usages[k].Success? && 0 <= i < |usages[k].value.usageItems|
      && j == |Entries(enterprise, logins, usages, k)| + i
      && Entries(enterprise, logins, usages, n)[j] == EntryOf(enterprise, logins[k], usages[k].value.usageItems[i])
  {
    var prev := Entries(enterprise, logins, usages, n - 1);
    if j < |prev| {
      EntryOrigin(enterprise, logins, usages, n - 1, j);
      var k, i :| 0 <= k < n - 1 && usages[k].Success? && 0 <= i < |usages[k].value.usageItems|
        && j == |Entries(enterprise, logins, usages, k)| + i
        && prev[j] == EntryOf(enterprise, logins[k], usages[k].value.usageItems[i]);
      assert Entries(enterprise, logins, usages, n)[j] == prev[j];
    } else {
      var items := usages[n - 1].value.usageItems;
      var i := j - |prev|;
      UserEntriesAt(enterprise, logins[n - 1], items, |items|, i);
      assert Entries(enterprise, logins, usages, n)[j] == EntryOf(enterprise, logins[n - 1], items[i]);
    }
  }

  /**
   * An entry is collected exactly when it is the entry of some usage item of
   * some login whose usage was fetched.
   */
  lemma {:induction false} EntriesMembership(enterprise: string, logins: seq<string>, usages: seq<Result<UsageResponse, GetError>>, n: nat, e: MetricEntry)
    requires n <= |logins| == |usages|
    ensures e in Entries(enterprise, logins, usages, n) <==>
      exists k, i :: 0 <= k < n && usages[k].Success? && 0 <= i < |usages[k].value.usageItems|
        && e == EntryOf(enterprise, logins[k], usages[k].value.usageItems[i])
  {
    if n > 0 {
      EntriesMembership(enterprise, logins, usages, n - 1, e);
      var prev := Entries(enterprise, logins, usages, n - 1);
      if usages[n - 1].Success? {
        var items := usages[n - 1].value.usageItems;
        var mine := UserEntries(enterprise, logins[n - 1], items, |items|);
        assert Entries(enterprise, logins, usages, n) == prev + mine;
        if e in mine {
          var j :| 0 <= j < |mine| && mine[j] == e;
          UserEntriesAt(enterprise, logins[n - 1], items, |items|, j);
        }
        if exists i :: 0 <= i < |items| && e == EntryOf(enterprise, logins[n - 1], items[i]) {
          var i :| 0 <= i < |items| && e == EntryOf(enterprise, logins[n - 1], items[i]);
          UserEntriesAt(enterprise, logins[n - 1], items, |items|, i);
          assert mine[i] == e;
        }
      }
    }
  }

  /** Gauge vector m holds a series for exactly the label sets of the entries set into it. */
  lemma {:induction false} SeriesKeys(entries: seq<MetricEntry>, n: nat, m: Metric, labels: Labels)
    requires n <= |entries|
    ensures labels in Series(entries, n, m) <==> exists k :: 0 <= k < n && entries[k].labels == labels
  {
    if n > 0 {
      SeriesKeys(entries, n - 1, m, labels);
    }
  }

  /** When several entries share a label set, the value of the last of them is published. */
  lemma {:induction false} SeriesLastWins(entries: seq<MetricEntry>, n: nat, m: Metric, k: nat)
    requires k < n <= |entries|
    requires forall j :: k < j < n ==> entries[j].labels != entries[k].labels
    ensures entries[k].labels in Series(entries, n, m)
    ensures Series(entries, n, m)[entries[k].labels] == Value(entries[k], m)
  {
    if k < n - 1 {
      SeriesLastWins(entries, n - 1, m, k);
    }
  }

  /** A prometheus GaugeVec: the current value of each labelled series. */
  class GaugeVec {
    var series: map<Labels, Float64>

    constructor ()
      ensures series == map[]
    {
      series := map[];
    }

    /** Reset: delete every series. */
    method Reset()
      modifies this
      ensures series == map[]
    {
      series := map[];
    }

    /** With(labels).Set(value): create or overwrite one series. */
    method Set(labels: Labels, value: Float64)
      modifies this
      ensures series == old(series)[labels := value]
    {
      series := series[labels := value];
    }
  }

  /** The three gauge vectors the exporter publishes, as three distinct objects. */
  class Gauges {
    const amount: GaugeVec
    const gross: GaugeVec
    const discount: GaugeVec

    predicate Valid()
      reads this
    {
      amount != gross && gross != discount && amount != discount
    }

    constructor ()
      ensures Valid() && fresh(amount) && fresh(gross) && fresh(discount)
      ensures amount.series == map[] && gross.series == map[] && discount.series == map[]
    {
      amount := new GaugeVec();
      gross := new GaugeVec();
      discount := new GaugeVec();
    }

    /** The series of the gauge vector of metric m. */
    function Of(m: Metric): map<Labels, Float64>
      reads this, amount, gross, discount
    {
      match m
      case RequestAmount => amount.series
      case RequestCostGross => gross.series
      case RequestCostDiscount => discount.series
    }

    /**
     * Reset the three vectors, then set each entry's three values in entry
     * order. The result does not depend on what the vectors held before, so
     * publishing the same entries again leaves the same state.
     */
    method Publish(entries: seq<MetricEntry>)
      requires Valid()
      modifies amount, gross, discount
      ensures forall m :: Of(m) == Series(entries, |entries|, m)
    {
      amount.Reset();
      gross.Reset();
      discount.Reset();
      var i := 0;
      while i < |entries|
        invariant i <= |entries|
        invariant forall m :: Of(m) == Series(entries, i, m)
      {
        var e := entries[i];
        amount.Set(e.labels, e.grossQuantity);
        gross.Set(e.labels, e.grossAmount);
        discount.Set(e.labels, e.discountAmount);
        i := i + 1;
      }
    }
  }

  /** The rate-limit state after the usage of the first n logins has been fetched in turn, from state st. */
  function UsageStateAfter(st: RateLimit, usage: nat -> Call<UsageResponse>, n: nat): RateLimit
    decreases n, 0
  {
    if n == 0 then st else UsageCallState(st, usage, n - 1)
  }

  /** The rate-limit state once the usage of login k is fetched after that of the first k. */
  function UsageCallState(st: RateLimit, usage: nat -> Call<UsageResponse>, k: nat): RateLimit
    decreases k, 1
  {
    GetSpec(UsageStateAfter(st, usage, k), usage(k)).state
  }

  /** One fetch of the collect loop: the usage of the k-th login. */
  method FetchUsage(client: Client, enterprise: string, login: string, usage: nat -> Call<UsageResponse>, k: nat, ghost st0: RateLimit)
    returns (r: Result<UsageResponse, UsageError>)
    requires client.State() == UsageStateAfter(st0, usage, k)
    modifies client
    ensures client.State() == UsageStateAfter(st0, usage, k + 1)
    ensures r.Success? <==> FetchResult(usage(k)).Success?
    ensures r.Success? ==> r.value == FetchResult(usage(k)).value
  {
    r := client.GetUserPremiumUsage(enterprise, login, usage(k));
  }

  /** The inner loop of collect: one entry per usage item of one user, appended in item order. */
  method AppendUserEntries(entries: seq<MetricEntry>, enterprise: string, login: string, items: seq<UsageItem>)
    returns (out: seq<MetricEntry>)
    ensures out == entries + UserEntries(enterprise, login, items, |items|)
  {
    out := entries;
    var j := 0;
    while j < |items|
      invariant j <= |items|
      invariant out == entries + UserEntries(enterprise, login, items, j)
    {
      out := out + [EntryOf(enterprise, login, items[j])];
      j := j + 1;
    }
  }

  /** The loop of collect over the seat holders, which builds the entries. */
  method CollectEntries(client: Client, enterprise: string, logins: seq<string>, usage: nat -> Call<UsageResponse>)
    returns (entries: seq<MetricEntry>)
    modifies client
    ensures entries == Entries(enterprise, logins, UsageResults(usage, |logins|), |logins|)
    ensures client.State() == UsageStateAfter(old(client.State()), usage, |logins|)
  {
    ghost var usages := UsageResults(usage, |logins|);
    ghost var st0 := client.State();
    entries := [];
    var k := 0;
    while k < |logins|
      invariant k <= |logins|
      invariant entries == Entries(enterprise, logins, usages, k)
      invariant client.State() == UsageStateAfter(st0, usage, k)
    {
      var login := logins[k];
      var fetched := FetchUsage(client, enterprise, login, usage, k, st0);
      UsageResultsAt(usage, |logins|, k);
      if fetched.Failure? {
        k := k + 1;
        continue;
      }
      var items := fetched.value.usageItems;
      entries := AppendUserEntries(entries, enterprise, login, items);
      k := k + 1;
    }
  }

  /**
   * collect: list the seat holders; on failure return the listing error and
   * leave the gauges alone. Otherwise fetch each holder's usage in login
   * order, skip a holder whose fetch fails, build one entry per usage item,
   * publish the entries and return no error.
   */
  method Collect(client: Client, gauges: Gauges, enterprise: string, pages: seq<Call<SeatsResponse>>, usage: nat -> Call<UsageResponse>)
    returns (err: Option<SeatsError>)
    requires Terminates(Fetched(pages))
    requires gauges.Valid()
    modifies client, gauges.amount, gauges.gross, gauges.discount
    ensures var listed := Listed(Fetched(pages), 0);
      var listedState := ProgressAfter(old(client.State()), pages, |Requested(Fetched(pages), 0)|).state;
      && (listed.Failure? ==>
            err == Some(listed.error)
            && client.State() == listedState
            && unchanged(gauges.amount, gauges.gross, gauges.discount))
      && (listed.Success? ==>
            var logins := listed.value;
            var entries := Entries(enterprise, logins, UsageResults(usage, |logins|), |logins|);
            err == None
            && client.State() == UsageStateAfter(listedState, usage, |logins|)
            && forall m :: gauges.Of(m) == Series(entries, |entries|, m))
  {
    var listed, requested, sleeps := client.ListCopilotSeats(enterprise, pages);
    if listed.Failure? {
      return Some(listed.error);
    }
    var logins := listed.value;
    var entries := CollectEntries(client, enterprise, logins, usage);
    gauges.Publish(entries);
    err := None;
  }
}
