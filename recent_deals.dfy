/**
 * The recent-deals log: which logged deals count as completed, how the list
 * is loaded (completed deals, newest first, truncated) or taken from the
 * cache, the filters of the view, the quote-id edit with its rollback, and
 * how a saved deal is merged into or prepended to the log.
 *
 * Files and the cache are not modelled: their contents are inputs, and what
 * would be written is returned. A deal is a JSON object.
 */
module RecentDeals {
  import opened Options
  import opened Text
  import opened JsonValues

  type Deal = map<string, Json>

  const DefaultMaxDeals: int := 10
  const DefaultMaxRecentDealsCount: int := 50
  /** Cached deals younger than this many seconds are used as is. */
  const CacheLifetime: real := 300.0
  const EpochTimestamp: string := "1970-01-01T00:00:00"

  // ---------------------------------------------------------------------
  // Completeness

  /** `bool(deal.get(key, '').strip())`, or `None` where `.strip()` raises. */
  function NonBlank(d: Deal, key: string): (r: Option<bool>)
    ensures r.Some? <==> Get(d, key, JStr("")).JStr?
  {
    match Get(d, key, JStr(""))
    case JStr(s) => Some(Strip(s) != "")
    case _ => None
  }

  /** `len(deal.get(key, [])) > 0`, or `None` where `len` raises. */
  function HasItems(d: Deal, key: string): (r: Option<bool>)
    ensures r.Some? <==> Len(Get(d, key, JArr([]))).Some?
  {
    match Len(Get(d, key, JArr([])))
    case Some(n) => Some(n > 0)
    case None => None
  }

  /** Python's short-circuit `a or b` over answers that may be a raise. */
  function OrElse(a: Option<bool>, b: Option<bool>): Option<bool>
  {
    match a
    case None => None
    case Some(true) => Some(true)
    case Some(false) => b
  }

  /** Python's short-circuit `a and b` over answers that may be a raise. */
  function AndAlso(a: Option<bool>, b: Option<bool>): Option<bool>
  {
    match a
    case None => None
    case Some(false) => Some(false)
    case Some(true) => b
  }

  /** `_is_deal_completed`, with `None` where evaluating it raises. */
  function IsDealCompleted(d: Deal): (r: Option<bool>)
    ensures r == Some(true) ==>
              Get(d, "customer_name", JStr("")).JStr? && Strip(Get(d, "customer_name", JStr("")).s) != ""
              && Get(d, "salesperson", JStr("")).JStr? && Strip(Get(d, "salesperson", JStr("")).s) != ""
    ensures Get(d, "customer_name", JStr("")) == JStr("") ==> r == Some(false)
  {
    AndAlso(NonBlank(d, "customer_name"),
      AndAlso(NonBlank(d, "salesperson"),
        OrElse(HasItems(d, "equipment"), OrElse(HasItems(d, "trades"), HasItems(d, "parts")))))
  }

  /** A deal whose checked fields, where present, have the types the check expects. */
  predicate WellTyped(d: Deal)
  {
    ("customer_name" in d ==> d["customer_name"].JStr?)
    && ("salesperson" in d ==> d["salesperson"].JStr?)
    && ("equipment" in d ==> d["equipment"].JArr?)
    && ("trades" in d ==> d["trades"].JArr?)
    && ("parts" in d ==> d["parts"].JArr?)
  }

  function TextField(d: Deal, key: string): string
  {
    if key in d && d[key].JStr? then d[key].s else ""
  }

  function Count(d: Deal, key: string): nat
  {
    if key in d && d[key].JArr? then |d[key].items| else 0
  }

  /**
   * For a well-typed deal: completed exactly when customer and salesperson
   * are non-blank after `strip()` and some item list is non-empty.
   */
  lemma CompletedIff(d: Deal)
    requires WellTyped(d)
    ensures IsDealCompleted(d)
            == Some(Strip(TextField(d, "customer_name")) != "" && Strip(TextField(d, "salesperson")) != ""
                    && (Count(d, "equipment") > 0 || Count(d, "trades") > 0 || Count(d, "parts") > 0))
  {
  }

  /** A customer name that is not a string makes the check raise. */
  lemma CompletedRaisesOnBadName(d: Deal)
    requires "customer_name" in d && !d["customer_name"].JStr?
    ensures IsDealCompleted(d).None?
  {
  }

  // ---------------------------------------------------------------------
  // Loading: filter, sort, truncate

  /** `[d for d in deals if completed(d)]`, or `None` if any check raises. */
  function FilterCompleted(ds: seq<Deal>): (r: Option<seq<Deal>>)
    ensures r.Some? <==> forall i :: 0 <= i < |ds| ==> IsDealCompleted(ds[i]).Some?
    ensures r.Some? ==> forall d :: d in r.value <==> d in ds && IsDealCompleted(d) == Some(true)
    ensures r.Some? ==> multiset(r.value) <= multiset(ds)
    ensures r.Some? ==> IsSubsequence(r.value, ds)
    ensures r.Some? ==>
              forall d :: multiset(r.value)[d] == (if IsDealCompleted(d) == Some(true) then multiset(ds)[d] else 0)
  {
    if |ds| == 0 then Some([])
    else
      var head := IsDealCompleted(ds[0]);
      var rest := FilterCompleted(ds[1..]);
      assert ds == [ds[0]] + ds[1..];
      if head.None? || rest.None? then None
      else if head.value then
        assert ([ds[0]] + rest.value)[1..] == rest.value;
        Some([ds[0]] + rest.value)
      else
        SubsequenceCons(rest.value, ds[0], ds[1..]);
        assert ds == [ds[0]] + ds[1..];
        Some(rest.value)
  }

  /** `d.get('completion_timestamp', d.get('timestamp', '1970-01-01T00:00:00'))` */
  function SortKey(d: Deal): Json
  {
    Get(d, "completion_timestamp", Get(d, "timestamp", JStr(EpochTimestamp)))
  }

  predicate StringKeys(ds: seq<Deal>)
  {
    forall i :: 0 <= i < |ds| ==> SortKey(ds[i]).JStr?
  }

  function Key(d: Deal): string
  {
    if SortKey(d).JStr? then SortKey(d).s else ""
  }

  /** Python's `a < b` on strings: code points compared lexicographically. */
  predicate StrLess(a: string, b: string)
  {
    if |a| == 0 then |b| > 0
    else if |b| == 0 then false
    else if a[0] == b[0] then StrLess(a[1..], b[1..])
    else a[0] < b[0]
  }

  lemma {:induction false} StrLessIrreflexive(a: string)
    ensures !StrLess(a, a)
  {
    if |a| > 0 { StrLessIrreflexive(a[1..]); }
  }

  lemma {:induction false} StrLessTransitive(a: string, b: string, c: string)
    requires StrLess(a, b) && StrLess(b, c)
    ensures StrLess(a, c)
  {
    if |a| > 0 && |b| > 0 && |c| > 0 && a[0] == b[0] && b[0] == c[0] {
      StrLessTransitive(a[1..], b[1..], c[1..]);
    }
  }

  lemma {:induction false} StrLessTotal(a: string, b: string)
    ensures a == b || StrLess(a, b) || StrLess(b, a)
  {
    if |a| > 0 && |b| > 0 && a[0] == b[0] {
      StrLessTotal(a[1..], b[1..]);
      if a[1..] == b[1..] {
        assert a == [a[0]] + a[1..] && b == [b[0]] + b[1..];
      }
    }
  }

  lemma StrLessAsymmetric(a: string, b: string)
    requires StrLess(a, b)
    ensures !StrLess(b, a)
  {
    if StrLess(b, a) {
      StrLessTransitive(a, b, a);
      StrLessIrreflexive(a);
    }
  }

  /** Newest first: no deal has a smaller key than a later one. */
  predicate SortedDesc(ds: seq<Deal>, key: Deal -> string)
  {
    forall i, j {:trigger StrLess(key(ds[i]), key(ds[j]))} :: 0 <= i < j < |ds| ==> !StrLess(key(ds[i]), key(ds[j]))
  }

  /** Insert after every deal whose key is not smaller, so equal keys keep their order. */
  function InsertDesc(x: Deal, ds: seq<Deal>, key: Deal -> string): (r: seq<Deal>)
    ensures multiset(r) == multiset(ds) + multiset{x}
    ensures |r| == |ds| + 1
    ensures forall y :: y in r <==> y == x || y in ds
  {
    if |ds| == 0 then [x]
    else if StrLess(key(ds[0]), key(x)) then [x] + ds
    else
      assert ds == [ds[0]] + ds[1..];
      [ds[0]] + InsertDesc(x, ds[1..], key)
  }

  /** `sort(key=..., reverse=True)` as a stable insertion sort. */
  function SortDesc(ds: seq<Deal>, key: Deal -> string): (r: seq<Deal>)
    ensures multiset(r) == multiset(ds)
    ensures |r| == |ds|
  {
    if |ds| == 0 then []
    else
      assert ds == ds[..|ds| - 1] + [ds[|ds| - 1]];
      InsertDesc(ds[|ds| - 1], SortDesc(ds[..|ds| - 1], key), key)
  }

  /** A head no smaller than every later key keeps a sorted list sorted. */
  lemma {:induction false} SortedCons(h: Deal, t: seq<Deal>, key: Deal -> string)
    requires SortedDesc(t, key)
    requires forall j :: 0 <= j < |t| ==> !StrLess(key(h), key(t[j]))
    ensures SortedDesc([h] + t, key)
  {
    var r := [h] + t;
    forall i, j | 0 <= i < j < |r| ensures !StrLess(key(r[i]), key(r[j])) {
      var kj := key(t[j - 1]);
      assert r[j] == t[j - 1];
      if i == 0 {
        assert r[i] == h;
        assert !StrLess(key(h), kj);
      } else {
        assert r[i] == t[i - 1];
        assert !StrLess(key(t[i - 1]), kj);
      }
    }
  }

  lemma {:induction false} InsertDescSorted(x: Deal, ds: seq<Deal>, key: Deal -> string)
    requires SortedDesc(ds, key)
    ensures SortedDesc(InsertDesc(x, ds, key), key)
  {
    if |ds| == 0 {
    } else if StrLess(key(ds[0]), key(x)) {
      InsertFrontSorted(x, ds, key);
    } else {
      var tail := ds[1..];
      assert SortedDesc(tail, key) by {
        forall i, j | 0 <= i < j < |tail| ensures !StrLess(key(tail[i]), key(tail[j])) {
          assert tail[i] == ds[i + 1] && tail[j] == ds[j + 1];
        }
      }
      InsertDescSorted(x, tail, key);
      InsertBehindSorted(x, ds, key);
    }
  }

  /** A deal newer than the head of a sorted list goes in front of it. */
  lemma {:induction false} InsertFrontSorted(x: Deal, ds: seq<Deal>, key: Deal -> string)
    requires SortedDesc(ds, key) && |ds| > 0 && StrLess(key(ds[0]), key(x))
    ensures SortedDesc([x] + ds, key)
  {
    forall j | 0 <= j < |ds| ensures !StrLess(key(x), key(ds[j])) {
      var k := key(ds[j]);
      if j > 0 {
        assert !StrLess(key(ds[0]), k);
      }
      StrLessTotal(key(ds[0]), k);
      if key(ds[0]) != k {
        StrLessTransitive(k, key(ds[0]), key(x));
        StrLessAsymmetric(k, key(x));
      } else {
        StrLessAsymmetric(key(ds[0]), key(x));
      }
    }
    SortedCons(x, ds, key);
  }

  /** A deal not newer than the head goes behind it, into a sorted tail. */
  lemma {:induction false} InsertBehindSorted(x: Deal, ds: seq<Deal>, key: Deal -> string)
    requires SortedDesc(ds, key) && |ds| > 0 && !StrLess(key(ds[0]), key(x))
    requires SortedDesc(InsertDesc(x, ds[1..], key), key)
    ensures SortedDesc([ds[0]] + InsertDesc(x, ds[1..], key), key)
  {
    var tail := ds[1..];
    var ins := InsertDesc(x, tail, key);
    forall j | 0 <= j < |ins| ensures !StrLess(key(ds[0]), key(ins[j])) {
      var y := ins[j];
      assert y in ins;
      if y != x {
        var k :| 0 <= k < |tail| && tail[k] == y;
        assert ds[k + 1] == y;
      }
    }
    SortedCons(ds[0], ins, key);
  }

  lemma {:induction false} SortDescSorted(ds: seq<Deal>, key: Deal -> string)
    ensures SortedDesc(SortDesc(ds, key), key)
  {
    if |ds| > 0 {
      SortDescSorted(ds[..|ds| - 1], key);
      InsertDescSorted(ds[|ds| - 1], SortDesc(ds[..|ds| - 1], key), key);
    }
  }

  /** `s[:n]`, negative `n` counting from the end. */
  function PyPrefix<T>(s: seq<T>, n: int): (r: seq<T>)
    ensures r <= s
    ensures n >= 0 ==> |r| == if n < |s| then n else |s|
    ensures n < 0 ==> |r| == if |s| + n > 0 then |s| + n else 0
  {
    if n >= 0 then (if n < |s| then s[..n] else s)
    else if |s| + n > 0 then s[..|s| + n] else []
  }

  /** What the cache answers for the deal list. */
  datatype CachedValue = NoCachedValue | CachedNonList | CachedList(deals: seq<Deal>)

  /** The log file as the loaders find it. */
  datatype LogFile =
    | Missing
      /** not valid JSON */
    | Undecodable
      /** cannot be opened or read */
    | Unreadable
    | NotAList
    | Entries(deals: seq<Deal>)

  /** The cache is used only for a non-empty list stored less than 300 s ago (a zero time counts as none). */
  predicate CacheFresh(cached: CachedValue, cacheTime: Option<real>, now: real)
  {
    cached.CachedList? && |cached.deals| > 0
    && cacheTime.Some? && cacheTime.value != 0.0 && now - cacheTime.value < CacheLifetime
  }

  /**
   * The log branch of `_fetch_deals_from_source`: completed deals, newest
   * first, the first `maxDisplay`; [] for any file problem or raise. Keys
   * that are not all strings are taken to make the sort raise.
   */
  function LoadFromLog(log: LogFile, maxDisplay: int): (r: seq<Deal>)
    ensures maxDisplay >= 0 ==> |r| <= maxDisplay
    ensures r != [] ==> log.Entries? && FilterCompleted(log.deals).Some?
                        && |r| <= |FilterCompleted(log.deals).value|
  {
    if !log.Entries? then []
    else
      match FilterCompleted(log.deals)
      case None => []
      case Some(completed) =>
        if |completed| >= 2 && !StringKeys(completed) then []
        else PyPrefix(SortDesc(completed, Key), maxDisplay)
  }

  /** `_fetch_deals_from_source` */
  function FetchDeals(cached: CachedValue, cacheTime: Option<real>, now: real, log: LogFile, maxDisplay: int): (r: seq<Deal>)
    ensures CacheFresh(cached, cacheTime, now) ==> |r| > 0 && r == cached.deals
    ensures !CacheFresh(cached, cacheTime, now) ==> r == LoadFromLog(log, maxDisplay)
  {
    if CacheFresh(cached, cacheTime, now) then cached.deals else LoadFromLog(log, maxDisplay)
  }

  /**
   * Loaded deals are completed deals of the log, newest first, and at most
   * `maxDisplay` of them.
   */
  lemma LoadedDeals(log: LogFile, maxDisplay: int)
    ensures var r := LoadFromLog(log, maxDisplay);
            SortedDesc(r, Key)
            && (forall d :: d in r ==> log.Entries? && d in log.deals && IsDealCompleted(d) == Some(true))
            && (maxDisplay >= 0 ==> |r| <= maxDisplay)
  {
    if log.Entries? && FilterCompleted(log.deals).Some? {
      var completed := FilterCompleted(log.deals).value;
      if !(|completed| >= 2 && !StringKeys(completed)) {
        var r := PyPrefix(SortDesc(completed, Key), maxDisplay);
        assert LoadFromLog(log, maxDisplay) == r;
        SortedPrefix(completed, maxDisplay, Key);
        forall d | d in r ensures d in log.deals && IsDealCompleted(d) == Some(true) {
          assert d in completed;
        }
      }
    }
  }

  /** The prefix of the sorted completed deals is sorted and drawn from them. */
  lemma SortedPrefix(completed: seq<Deal>, maxDisplay: int, key: Deal -> string)
    ensures var r := PyPrefix(SortDesc(completed, key), maxDisplay);
            SortedDesc(r, key) && forall d :: d in r ==> d in completed
  {
    var sorted := SortDesc(completed, key);
    var r := PyPrefix(sorted, maxDisplay);
    SortDescSorted(completed, key);
    forall i, j | 0 <= i < j < |r| ensures !StrLess(key(r[i]), key(r[j])) {
      assert r[i] == sorted[i] && r[j] == sorted[j];
    }
    forall d | d in r ensures d in completed {
      var k :| 0 <= k < |r| && r[k] == d;
      assert sorted[k] == d;
      assert d in multiset(sorted);
    }
  }

  /** With enough completed deals and string keys, exactly `maxDisplay` are shown. */
  lemma LoadedCount(log: LogFile, maxDisplay: int)
    requires log.Entries? && FilterCompleted(log.deals).Some?
    requires StringKeys(FilterCompleted(log.deals).value) && maxDisplay >= 0
    ensures var n := |FilterCompleted(log.deals).value|;
            |LoadFromLog(log, maxDisplay)| == if maxDisplay < n then maxDisplay else n
  {
  }

  /** The cache is taken only when it is a non-empty list younger than 300 s. */
  lemma CacheOnlyWhenFresh(cached: CachedValue, cacheTime: Option<real>, now: real, log: LogFile, maxDisplay: int)
    requires FetchDeals(cached, cacheTime, now, log, maxDisplay) != LoadFromLog(log, maxDisplay)
    ensures cached.CachedList? && cacheTime.Some? && now - cacheTime.value < 300.0
    ensures FetchDeals(cached, cacheTime, now, log, maxDisplay) == cached.deals
  {
  }

  // ---------------------------------------------------------------------
  // Filters of the view

  /** `deal.get(key, False)` taken as a boolean. */
  predicate Flag(d: Deal, key: string)
  {
    Truthy(Get(d, key, JBool(false)))
  }

  /**
   * `check_deal` in `_apply_filters`. `age` is the deal's age in whole days
   * (`(now - deal_date).days`), `None` when no date could be parsed.
   */
  predicate CheckDeal(d: Deal, filterText: string, paidOnly: bool, age: Option<int>)
    ensures CheckDeal(d, filterText, paidOnly, age) && paidOnly ==> Flag(d, "paid")
    ensures CheckDeal(d, filterText, paidOnly, age) && filterText in {"Last 7 Days", "Last 30 Days"} ==>
              age.Some? && age.value <= 30
    ensures !paidOnly
            && filterText !in {"CSV Generated Only", "Email Sent Only", "Both CSV & Email", "Last 7 Days", "Last 30 Days"}
            ==> CheckDeal(d, filterText, paidOnly, age)
  {
    !(paidOnly && !Flag(d, "paid"))
    && !(filterText == "CSV Generated Only" && !Flag(d, "csv_generated"))
    && !(filterText == "Email Sent Only" && !Flag(d, "email_generated"))
    && !(filterText == "Both CSV & Email" && !(Flag(d, "csv_generated") && Flag(d, "email_generated")))
    && !(filterText == "Last 7 Days" && (age.None? || age.value > 7))
    && !(filterText == "Last 30 Days" && (age.None? || age.value > 30))
  }

  /** `a` is `b` with some elements left out, order kept. */
  predicate IsSubsequence(a: seq<Deal>, b: seq<Deal>)
    decreases |b|
  {
    if |a| == 0 then true
    else if |b| == 0 then false
    else if a[0] == b[0] then IsSubsequence(a[1..], b[1..])
    else IsSubsequence(a, b[1..])
  }

  /** `[d for d in recent_deals_data if check_deal(d)]` */
  function FilterDeals(ds: seq<Deal>, filterText: string, paidOnly: bool, ageOf: Deal -> Option<int>): (r: seq<Deal>)
    ensures forall d :: d in r <==> d in ds && CheckDeal(d, filterText, paidOnly, ageOf(d))
    ensures |r| <= |ds|
  {
    if |ds| == 0 then []
    else
      var rest := FilterDeals(ds[1..], filterText, paidOnly, ageOf);
      assert ds == [ds[0]] + ds[1..];
      if CheckDeal(ds[0], filterText, paidOnly, ageOf(ds[0])) then [ds[0]] + rest else rest
  }

  /** The filtered list keeps the order of the full list. */
  lemma {:induction false} FilterIsSubsequence(ds: seq<Deal>, filterText: string, paidOnly: bool, ageOf: Deal -> Option<int>)
    ensures IsSubsequence(FilterDeals(ds, filterText, paidOnly, ageOf), ds)
  {
    if |ds| > 0 {
      FilterIsSubsequence(ds[1..], filterText, paidOnly, ageOf);
      var rest := FilterDeals(ds[1..], filterText, paidOnly, ageOf);
      assert ([ds[0]] + ds[1..]) == ds;
      if CheckDeal(ds[0], filterText, paidOnly, ageOf(ds[0])) {
        assert ([ds[0]] + rest)[1..] == rest;
      } else {
        SubsequenceCons(rest, ds[0], ds[1..]);
      }
    }
  }

  /** A subsequence of `b` is one of `[x] + b`. */
  lemma {:induction false} SubsequenceCons(a: seq<Deal>, x: Deal, b: seq<Deal>)
    requires IsSubsequence(a, b)
    ensures IsSubsequence(a, [x] + b)
    decreases |b|, 1
  {
    assert ([x] + b)[1..] == b;
    if |a| > 0 && a[0] == x {
      SubsequenceDrop(a, b);
    }
  }

  /** Dropping the head of a subsequence keeps it a subsequence. */
  lemma {:induction false} SubsequenceDrop(a: seq<Deal>, b: seq<Deal>)
    requires |a| > 0 && IsSubsequence(a, b)
    ensures IsSubsequence(a[1..], b)
    decreases |b|, 0
  {
    assert |b| > 0;
    assert [b[0]] + b[1..] == b;
    if a[0] == b[0] {
      SubsequenceCons(a[1..], b[0], b[1..]);
    } else {
      SubsequenceDrop(a, b[1..]);
      SubsequenceCons(a[1..], b[0], b[1..]);
    }
  }

  /** "Show Paid Only" keeps only paid deals; "Both CSV & Email" only deals with both flags. */
  lemma FilterFlags(ds: seq<Deal>, filterText: string, paidOnly: bool, ageOf: Deal -> Option<int>)
    ensures var r := FilterDeals(ds, filterText, paidOnly, ageOf);
            (paidOnly ==> forall d :: d in r ==> Flag(d, "paid"))
            && (filterText == "Both CSV & Email" ==>
                  forall d :: d in r ==> Flag(d, "csv_generated") && Flag(d, "email_generated"))
            && (filterText == "CSV Generated Only" ==> forall d :: d in r ==> Flag(d, "csv_generated"))
            && (filterText == "Email Sent Only" ==> forall d :: d in r ==> Flag(d, "email_generated"))
  {
  }

  /** "Last N Days" keeps only dated deals at most N whole days old. */
  lemma FilterAge(ds: seq<Deal>, filterText: string, paidOnly: bool, ageOf: Deal -> Option<int>)
    ensures var r := FilterDeals(ds, filterText, paidOnly, ageOf);
            (filterText == "Last 7 Days" ==> forall d :: d in r ==> ageOf(d).Some? && ageOf(d).value <= 7)
            && (filterText == "Last 30 Days" ==> forall d :: d in r ==> ageOf(d).Some? && ageOf(d).value <= 30)
  {
  }

  /** With no paid filter and a filter text that names no filter, every deal is shown. */
  lemma {:induction false} NoFilterKeepsAll(ds: seq<Deal>, filterText: string, ageOf: Deal -> Option<int>)
    requires filterText !in {"CSV Generated Only", "Email Sent Only", "Both CSV & Email", "Last 7 Days", "Last 30 Days"}
    ensures FilterDeals(ds, filterText, false, ageOf) == ds
  {
    if |ds| > 0 {
      NoFilterKeepsAll(ds[1..], filterText, ageOf);
      assert ds == [ds[0]] + ds[1..];
    }
  }

  // ---------------------------------------------------------------------
  // Quote ids

  /** `d.get('completion_timestamp') or d.get('timestamp')` */
  function DealId(d: Deal): (r: Json)
    ensures "completion_timestamp" in d && Truthy(d["completion_timestamp"]) ==> r == d["completion_timestamp"]
    ensures !("completion_timestamp" in d && Truthy(d["completion_timestamp"])) ==>
              r == (if "timestamp" in d then d["timestamp"] else JNull)
  {
    var stamp := Get(d, "completion_timestamp", JNull);
    if Truthy(stamp) then stamp else Get(d, "timestamp", JNull)
  }

  /** The index of the first deal with the given id. */
  function FirstMatch(ds: seq<Deal>, id: Json): (r: Option<nat>)
    ensures r.Some? ==> r.value < |ds| && DealId(ds[r.value]) == id
                        && forall j :: 0 <= j < r.value ==> DealId(ds[j]) != id
    ensures r.None? ==> forall j :: 0 <= j < |ds| ==> DealId(ds[j]) != id
  {
    if |ds| == 0 then None
    else if DealId(ds[0]) == id then Some(0)
    else match FirstMatch(ds[1..], id)
      case None => None
      case Some(k) => Some(k + 1)
  }

  /** The first deal with the id gets `quoteId` set to `value`; the list is otherwise unchanged. */
  function SetQuoteId(ds: seq<Deal>, id: Json, value: Json): (r: seq<Deal>)
    ensures |r| == |ds|
    ensures FirstMatch(ds, id).None? ==> r == ds
    ensures FirstMatch(ds, id).Some? ==>
              var i := FirstMatch(ds, id).value;
              "quoteId" in r[i] && r[i]["quoteId"] == value
              && (forall k :: k != "quoteId" ==> (k in r[i] <==> k in ds[i]) && (k in r[i] ==> r[i][k] == ds[i][k]))
              && forall j :: 0 <= j < |ds| && j != i ==> r[j] == ds[j]
  {
    match FirstMatch(ds, id)
    case None => ds
    case Some(i) => ds[i := ds[i]["quoteId" := value]]
  }

  /** Setting `quoteId` does not change which deal is the first match. */
  lemma QuoteIdKeepsMatch(ds: seq<Deal>, id: Json, value: Json)
    ensures FirstMatch(SetQuoteId(ds, id, value), id) == FirstMatch(ds, id)
  {
    var r := SetQuoteId(ds, id, value);
    assert forall j :: 0 <= j < |ds| ==> DealId(r[j]) == DealId(ds[j]);
    FirstMatchOfSameIds(ds, r, id);
  }

  lemma {:induction false} FirstMatchOfSameIds(a: seq<Deal>, b: seq<Deal>, id: Json)
    requires |a| == |b| && forall j :: 0 <= j < |a| ==> DealId(a[j]) == DealId(b[j])
    ensures FirstMatch(a, id) == FirstMatch(b, id)
  {
    if |a| > 0 {
      FirstMatchOfSameIds(a[1..], b[1..], id);
    }
  }

  /**
   * A rollback after an edit leaves each list as if only the rollback had
   * run; when the first match held `current` under `quoteId`, the list is
   * exactly as before the edit.
   */
  lemma RollbackRestores(ds: seq<Deal>, id: Json, value: Json, current: Json)
    ensures SetQuoteId(SetQuoteId(ds, id, value), id, current) == SetQuoteId(ds, id, current)
    ensures FirstMatch(ds, id).Some? && "quoteId" in ds[FirstMatch(ds, id).value]
            && ds[FirstMatch(ds, id).value]["quoteId"] == current
            ==> SetQuoteId(ds, id, current) == ds
    ensures FirstMatch(ds, id).None? ==> SetQuoteId(ds, id, current) == ds
  {
    RollbackOverrides(ds, id, value, current);
    RollbackKeepsCurrent(ds, id, current);
  }

  /** Two writes of `quoteId` to the first match leave only the second. */
  lemma RollbackOverrides(ds: seq<Deal>, id: Json, value: Json, current: Json)
    ensures SetQuoteId(SetQuoteId(ds, id, value), id, current) == SetQuoteId(ds, id, current)
  {
    QuoteIdKeepsMatch(ds, id, value);
    match FirstMatch(ds, id) {
      case None =>
      case Some(i) =>
        var once := ds[i := ds[i]["quoteId" := value]];
        assert SetQuoteId(ds, id, value) == once;
        assert SetQuoteId(once, id, current) == once[i := once[i]["quoteId" := current]];
        RewriteTwice(ds[i], "quoteId", value, current);
    }
  }

  /** Writing back the value the first match already holds, or having no match, changes nothing. */
  lemma RollbackKeepsCurrent(ds: seq<Deal>, id: Json, current: Json)
    ensures FirstMatch(ds, id).Some? && "quoteId" in ds[FirstMatch(ds, id).value]
            && ds[FirstMatch(ds, id).value]["quoteId"] == current
            ==> SetQuoteId(ds, id, current) == ds
    ensures FirstMatch(ds, id).None? ==> SetQuoteId(ds, id, current) == ds
  {
    match FirstMatch(ds, id) {
      case None =>
      case Some(i) =>
        if "quoteId" in ds[i] && ds[i]["quoteId"] == current {
          assert ds[i]["quoteId" := current] == ds[i];
        }
    }
  }

  /** A second write to the same key overrides the first. */
  lemma RewriteTwice(d: Deal, k: string, v: Json, w: Json)
    ensures d[k := v][k := w] == d[k := w]
  {
  }

  /** `pop("quoteId")` for `None`, else `deal["quoteId"] = q`. */
  function WithQuoteId(d: Deal, quoteId: Option<string>): (r: Deal)
    ensures quoteId.None? ==> "quoteId" !in r
    ensures quoteId.Some? ==> "quoteId" in r && r["quoteId"] == JStr(quoteId.value)
    ensures forall k :: k != "quoteId" ==> (k in r <==> k in d) && (k in r ==> r[k] == d[k])
  {
    match quoteId
    case None => d - {"quoteId"}
    case Some(q) => d["quoteId" := JStr(q)]
  }

  /**
   * What persisting a new quote id gives: the log's first deal with that id
   * gets it and is written (`saved` is whether the write succeeds); with no
   * readable log or no such deal, nothing is written.
   */
  predicate PersistOutcome(log: LogFile, dealId: Json, quoteId: Option<string>, writeSucceeds: bool,
                           saved: bool, written: Option<seq<Deal>>)
  {
    if log.Entries? && FirstMatch(log.deals, dealId).Some? then
      var i := FirstMatch(log.deals, dealId).value;
      saved == writeSucceeds && written == Some(log.deals[i := WithQuoteId(log.deals[i], quoteId)])
    else
      !saved && written == None
  }

  method PersistQuoteIdChange(log: LogFile, dealId: Json, quoteId: Option<string>, writeSucceeds: bool)
    returns (saved: bool, written: Option<seq<Deal>>)
    ensures !log.Entries? ==> !saved && written == None
    ensures log.Entries? && FirstMatch(log.deals, dealId).None? ==> !saved && written == None
    ensures log.Entries? && FirstMatch(log.deals, dealId).Some? ==>
              var i := FirstMatch(log.deals, dealId).value;
              saved == writeSucceeds && written == Some(log.deals[i := WithQuoteId(log.deals[i], quoteId)])
  {
    if !log.Entries? {
      return false, None;
    }
    var deals := log.deals;
    var i := 0;
    while i < |deals| && DealId(deals[i]) != dealId
      invariant 0 <= i <= |deals|
      invariant forall j :: 0 <= j < i ==> DealId(deals[j]) != dealId
    {
      i := i + 1;
    }
    if i == |deals| {
      return false, None;
    }
    FirstMatchIsFirst(deals, dealId, i);
    deals := deals[i := WithQuoteId(deals[i], quoteId)];
    return writeSucceeds, Some(deals);
  }

  lemma {:induction false} FirstMatchIsFirst(ds: seq<Deal>, id: Json, i: nat)
    requires i < |ds| && DealId(ds[i]) == id && forall j :: 0 <= j < i ==> DealId(ds[j]) != id
    ensures FirstMatch(ds, id) == Some(i)
  {
    if i > 0 {
      FirstMatchIsFirst(ds[1..], id, i - 1);
    }
  }

  /** The loop behind `deal_in_list["quoteId"] = ...; break` over one list. */
  method SetQuoteIdInList(ds: seq<Deal>, id: Json, value: Json) returns (r: seq<Deal>)
    ensures r == SetQuoteId(ds, id, value)
    ensures |r| == |ds|
  {
    r := ds;
    var i := 0;
    while i < |ds|
      invariant 0 <= i <= |ds| && r == ds
      invariant forall j :: 0 <= j < i ==> DealId(ds[j]) != id
    {
      if DealId(ds[i]) == id {
        FirstMatchIsFirst(ds, id, i);
        return ds[i := ds[i]["quoteId" := value]];
      }
      i := i + 1;
    }
  }

  // ---------------------------------------------------------------------
  // Saving a deal into the log

  /** `deal_data_dict` after the stamping and flag update of `_save_deal_to_recent_enhanced`. */
  function Stamped(deal: Deal, csvGenerated: bool, emailGenerated: bool, nowIso: string): (r: Deal)
    ensures r.Keys == deal.Keys + {"completion_timestamp", "csv_generated", "email_generated"}
    ensures "completion_timestamp" in deal ==> r["completion_timestamp"] == deal["completion_timestamp"]
    ensures "completion_timestamp" !in deal ==> r["completion_timestamp"] == JStr(nowIso)
    ensures r["csv_generated"] == JBool(csvGenerated) && r["email_generated"] == JBool(emailGenerated)
    ensures forall k :: k in deal && k !in {"completion_timestamp", "csv_generated", "email_generated"} ==> r[k] == deal[k]
  {
    var d := if "completion_timestamp" !in deal then deal["completion_timestamp" := JStr(nowIso)] else deal;
    d + map["csv_generated" := JBool(csvGenerated), "email_generated" := JBool(emailGenerated)]
  }

  /** What `deals[:max_deals]` does with the configured value: a limit, no limit (`None`), or a `TypeError`. */
  datatype Limit = UpTo(n: int) | NoLimit | BadLimit

  function LimitOf(v: Json): (r: Limit)
    ensures r.NoLimit? <==> v.JNull?
    ensures r.BadLimit? <==> v.JStr? || v.JArr? || v.JObj?
    ensures v.JNum? ==> r == UpTo(v.n)
    ensures v.JBool? ==> r.UpTo? && r.n == (if v.b then 1 else 0)
  {
    match v
    case JNum(n) => UpTo(n)
    case JBool(b) => UpTo(if b then 1 else 0)
    case JNull => NoLimit
    case _ => BadLimit
  }

  /** The index of the first logged deal with the same `completion_timestamp`. */
  function SameStamp(ds: seq<Deal>, stamp: Json): (r: Option<nat>)
    ensures r.Some? ==> r.value < |ds| && Get(ds[r.value], "completion_timestamp", JNull) == stamp
                        && forall j :: 0 <= j < r.value ==> Get(ds[j], "completion_timestamp", JNull) != stamp
    ensures r.None? ==> forall j :: 0 <= j < |ds| ==> Get(ds[j], "completion_timestamp", JNull) != stamp
  {
    if |ds| == 0 then None
    else if Get(ds[0], "completion_timestamp", JNull) == stamp then Some(0)
    else match SameStamp(ds[1..], stamp)
      case None => None
      case Some(k) => Some(k + 1)
  }

  /** The deal log after saving `d`: merged into its namesake, or prepended and truncated. */
  function Upsert(ds: seq<Deal>, d: Deal, limit: Limit): (r: Option<seq<Deal>>)
    requires "completion_timestamp" in d
    ensures r.None? <==> SameStamp(ds, d["completion_timestamp"]).None? && limit.BadLimit?
    ensures r.Some? && SameStamp(ds, d["completion_timestamp"]).Some? ==> |r.value| == |ds|
  {
    match SameStamp(ds, d["completion_timestamp"])
    case Some(i) => Some(ds[i := ds[i] + d])
    case None =>
      match limit
      case UpTo(n) => Some(PyPrefix([d] + ds, n))
      case NoLimit => Some([d] + ds)
      case BadLimit => None
  }

  /**
   * An entry with the same stamp is updated in place (length kept, nothing
   * dropped); otherwise the deal goes first and the list is cut to the limit.
   */
  lemma UpsertShape(ds: seq<Deal>, d: Deal, limit: Limit)
    requires "completion_timestamp" in d
    ensures var i := SameStamp(ds, d["completion_timestamp"]);
            var r := Upsert(ds, d, limit);
            (i.Some? ==> r.Some? && |r.value| == |ds|
                         && r.value[i.value] == ds[i.value] + d
                         && (forall k :: k in d ==> r.value[i.value][k] == d[k])
                         && forall j :: 0 <= j < |ds| && j != i.value ==> r.value[j] == ds[j])
            && (i.None? && limit.UpTo? ==> r.Some?
                                           && (limit.n >= 0 ==> |r.value| == (if limit.n < |ds| + 1 then limit.n else |ds| + 1))
                                           && (limit.n < 0 ==> |r.value| == (if |ds| + 1 + limit.n > 0 then |ds| + 1 + limit.n else 0))
                                           && (limit.n > 0 ==> r.value[0] == d && r.value[1..] <= ds))
            && (i.None? && limit.NoLimit? ==> r == Some([d] + ds))
            && (r.None? <==> i.None? && limit.BadLimit?)
  {
    if SameStamp(ds, d["completion_timestamp"]).None? && limit.UpTo? && limit.n > 0 {
      var r := PyPrefix([d] + ds, limit.n);
      assert r[0] == ([d] + ds)[0];
      assert r[1..] <= ds by {
        assert forall j :: 1 <= j < |r| ==> r[j] == ds[j - 1];
      }
    }
  }

  /** The loop `for idx, d_log in enumerate(deals): ... break` of the save. */
  method FindSameStamp(ds: seq<Deal>, stamp: Json) returns (idx: int)
    ensures idx == -1 <==> SameStamp(ds, stamp).None?
    ensures idx != -1 ==> SameStamp(ds, stamp) == Some(idx)
  {
    idx := -1;
    var i := 0;
    while i < |ds|
      invariant 0 <= i <= |ds|
      invariant forall j :: 0 <= j < i ==> Get(ds[j], "completion_timestamp", JNull) != stamp
    {
      if Get(ds[i], "completion_timestamp", JNull) == stamp {
        SameStampIsFirst(ds, stamp, i);
        return i;
      }
      i := i + 1;
    }
    SameStampNone(ds, stamp);
  }

  lemma {:induction false} SameStampIsFirst(ds: seq<Deal>, stamp: Json, i: nat)
    requires i < |ds| && Get(ds[i], "completion_timestamp", JNull) == stamp
    requires forall j :: 0 <= j < i ==> Get(ds[j], "completion_timestamp", JNull) != stamp
    ensures SameStamp(ds, stamp) == Some(i)
  {
    if i > 0 {
      SameStampIsFirst(ds[1..], stamp, i - 1);
    }
  }

  lemma {:induction false} SameStampNone(ds: seq<Deal>, stamp: Json)
    requires forall j :: 0 <= j < |ds| ==> Get(ds[j], "completion_timestamp", JNull) != stamp
    ensures SameStamp(ds, stamp).None?
  {
    if |ds| > 0 {
      SameStampNone(ds[1..], stamp);
    }
  }

  /**
   * `_save_deal_to_recent_enhanced`. `config` is the configuration it
   * resolves (`None` when there is none); `nowIso` is `datetime.now().isoformat()`.
   * Returns the stamped deal (the caller's dictionary is changed even when
   * nothing is saved) and the list that would be written.
   */
  method SaveDealToRecent(deal: Deal, csvGenerated: bool, emailGenerated: bool, nowIso: string,
                          config: Option<map<string, Json>>, log: LogFile, writeSucceeds: bool)
    returns (ok: bool, stamped: Deal, written: Option<seq<Deal>>)
    ensures stamped == Stamped(deal, csvGenerated, emailGenerated, nowIso)
    ensures !(Truthy(Get(stamped, "customer_name", JNull)) && Truthy(Get(stamped, "salesperson", JNull)))
            ==> !ok && written == None
    ensures ok == (written.Some? && writeSucceeds)
    ensures written.Some? ==>
              config.Some? && |config.value| > 0 && !log.Unreadable?
              && var before := if log.Entries? then log.deals else [];
                 Upsert(before, stamped, LimitOf(Get(config.value, "MAX_RECENT_DEALS_COUNT", JNum(DefaultMaxRecentDealsCount))))
                 == written
    ensures (Truthy(Get(stamped, "customer_name", JNull)) && Truthy(Get(stamped, "salesperson", JNull))
             && config.Some? && |config.value| > 0 && !log.Unreadable?) ==>
              var before := if log.Entries? then log.deals else [];
              written == Upsert(before, stamped, LimitOf(Get(config.value, "MAX_RECENT_DEALS_COUNT", JNum(DefaultMaxRecentDealsCount))))
  {
    stamped := Stamped(deal, csvGenerated, emailGenerated, nowIso);
    if !(Truthy(Get(stamped, "customer_name", JNull)) && Truthy(Get(stamped, "salesperson", JNull))) {
      return false, stamped, None;
    }
    if config.None? || |config.value| == 0 {
      return false, stamped, None;
    }
    var maxDeals := LimitOf(Get(config.value, "MAX_RECENT_DEALS_COUNT", JNum(DefaultMaxRecentDealsCount)));
    if log.Unreadable? {
      return false, stamped, None;
    }
    var deals := if log.Entries? then log.deals else [];
    written := UpsertLog(deals, stamped, maxDeals);
    ok := written.Some? && writeSucceeds;
  }

  /** The update-or-prepend step of the save; `None` is the `TypeError` of a bad limit. */
  method UpsertLog(deals: seq<Deal>, d: Deal, limit: Limit) returns (r: Option<seq<Deal>>)
    requires "completion_timestamp" in d
    ensures r == Upsert(deals, d, limit)
  {
    var idx := FindSameStamp(deals, d["completion_timestamp"]);
    if idx != -1 {
      return Some(deals[idx := deals[idx] + d]);
    }
    var front := [d] + deals;
    match limit {
      case UpTo(n) => r := Some(PyPrefix(front, n));
      case NoLimit => r := Some(front);
      case BadLimit => r := None;
    }
  }

  // ---------------------------------------------------------------------
  // The view's two lists

  class RecentDealsView {
    /** `recent_deals_data`: the loaded deals. */
    var recentDeals: seq<Deal>
    /** `filtered_deals_data`: what the list widget shows. */
    var filteredDeals: seq<Deal>
    /** The status filter's current text and the paid-only check box. */
    var filterText: string
    var paidOnly: bool

    constructor ()
      ensures recentDeals == [] && filteredDeals == [] && filterText == "All Completed Deals" && !paidOnly
    {
      recentDeals, filteredDeals := [], [];
      filterText, paidOnly := "All Completed Deals", false;
    }

    /** `_apply_filters` */
    method ApplyFilters(ageOf: Deal -> Option<int>)
      modifies this
      ensures filteredDeals == FilterDeals(recentDeals, filterText, paidOnly, ageOf)
      ensures recentDeals == old(recentDeals) && filterText == old(filterText) && paidOnly == old(paidOnly)
    {
      if |recentDeals| == 0 {
        filteredDeals := [];
        return;
      }
      filteredDeals := FilterDeals(recentDeals, filterText, paidOnly, ageOf);
    }

    /** `_populate_deals_list` */
    method PopulateDealsList(deals: seq<Deal>, ageOf: Deal -> Option<int>)
      modifies this
      ensures recentDeals == deals
      ensures filteredDeals == FilterDeals(deals, filterText, paidOnly, ageOf)
      ensures filterText == old(filterText) && paidOnly == old(paidOnly)
    {
      recentDeals := deals;
      ApplyFilters(ageOf);
    }

    /**
     * `_edit_add_quote_id` for the selected deal and the dialog's answer
     * (`text`, `accepted`): a changed id is set in both lists (blank meaning
     * `None`) and persisted; if persisting fails, both lists are set back to
     * the id shown in the dialog.
     */
    method EditAddQuoteId(selected: Option<Deal>, text: string, accepted: bool,
                          log: LogFile, writeSucceeds: bool)
      returns (attempted: bool, saved: bool, written: Option<seq<Deal>>)
      modifies this
      ensures filterText == old(filterText) && paidOnly == old(paidOnly)
      ensures !attempted ==> recentDeals == old(recentDeals) && filteredDeals == old(filteredDeals)
                             && !saved && written == None
      ensures attempted <==>
                selected.Some? && Truthy(DealId(selected.value)) && accepted
                && JStr(Strip(text)) != Get(selected.value, "quoteId", JStr(""))
      ensures attempted ==>
                var id := DealId(selected.value);
                var newId := if Strip(text) == "" then None else Some(Strip(text));
                var shown := Get(selected.value, "quoteId", JStr(""));
                var value := if saved then (if newId.None? then JNull else JStr(newId.value)) else shown;
                filteredDeals == SetQuoteId(old(filteredDeals), id, value)
                && recentDeals == SetQuoteId(old(recentDeals), id, value)
      ensures attempted ==>
                PersistOutcome(log, DealId(selected.value), if Strip(text) == "" then None else Some(Strip(text)),
                               writeSucceeds, saved, written)
    {
      attempted, saved, written := false, false, None;
      if selected.None? {
        return;
      }
      var deal := selected.value;
      var dealId := DealId(deal);
      if !Truthy(dealId) {
        return;
      }
      var current := Get(deal, "quoteId", JStr(""));
      var trimmed := Strip(text);
      if accepted && JStr(trimmed) != current {
        attempted := true;
        var newId: Option<string> := if trimmed == "" then None else Some(trimmed);
        var newValue := if newId.None? then JNull else JStr(newId.value);
        ghost var oldFiltered, oldRecent := filteredDeals, recentDeals;
        filteredDeals := SetQuoteIdInList(filteredDeals, dealId, newValue);
        recentDeals := SetQuoteIdInList(recentDeals, dealId, newValue);
        saved, written := PersistQuoteIdChange(log, dealId, newId, writeSucceeds);
        if !saved {
          filteredDeals := SetQuoteIdInList(filteredDeals, dealId, current);
          recentDeals := SetQuoteIdInList(recentDeals, dealId, current);
          RollbackRestores(oldFiltered, dealId, newValue, current);
          RollbackRestores(oldRecent, dealId, newValue, current);
        }
      }
    }
  }
}
