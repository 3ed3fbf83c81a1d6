/** components/Dashboard.tsx: the three counters and the filtered list of recent scans. */
module Dashboard {
  import opened Types
  import opened Seqs
  import Utils

  /** The filter buttons above the list. */
  datatype HistoryFilter = All | Low | Today

  /** At most this many records are listed. */
  const ShownLimit: nat := 20

  /** A record whose snapshot classifies as low stock. */
  predicate IsLowRecord(r: ScanRecord) {
    Utils.GetStockStatus(r.stockAtScan) == LOW
  }

  /** Records scanned on the current day; `isToday` tells whether a timestamp falls on
      the current local date. */
  function ScannedToday(isToday: string -> bool): ScanRecord -> bool {
    (r: ScanRecord) => isToday(r.timestamp)
  }

  /** Records whose snapshot is below `bound`. */
  function StockBelow(bound: int): ScanRecord -> bool {
    (r: ScanRecord) => r.stockAtScan < bound
  }

  /** The "Today" counter's records. */
  function TodayScans(history: seq<ScanRecord>, isToday: string -> bool): (today: seq<ScanRecord>)
    ensures IsSubsequence(today, history)
    ensures forall i :: 0 <= i < |today| ==> isToday(today[i].timestamp)
    ensures forall r: ScanRecord :: isToday(r.timestamp) ==> multiset(today)[r] == multiset(history)[r]
  {
    FilterIsSubsequence(history, ScannedToday(isToday));
    FilterKeepsAll(history, ScannedToday(isToday));
    Filter(history, ScannedToday(isToday))
  }

  /** The "Low" counter's records. */
  function LowStockScans(history: seq<ScanRecord>): (low: seq<ScanRecord>)
    ensures IsSubsequence(low, history)
    ensures forall i :: 0 <= i < |low| ==> Utils.GetStockStatus(low[i].stockAtScan) == LOW
    ensures forall r: ScanRecord :: Utils.GetStockStatus(r.stockAtScan) == LOW ==> multiset(low)[r] == multiset(history)[r]
  {
    FilterIsSubsequence(history, IsLowRecord);
    FilterKeepsAll(history, IsLowRecord);
    Filter(history, IsLowRecord)
  }

  /** The records the "Crit" counter counts: every record below 10, each as often as the
      history holds it, and nothing else. */
  function CriticalScans(history: seq<ScanRecord>): (critical: seq<ScanRecord>)
    ensures forall i :: 0 <= i < |critical| ==> critical[i].stockAtScan < 10
    ensures forall r: ScanRecord :: r.stockAtScan < 10 ==> multiset(critical)[r] == multiset(history)[r]
  {
    FilterKeepsAll(history, StockBelow(10));
    Filter(history, StockBelow(10))
  }

  /** The "Crit" counter. */
  function CriticalCount(history: seq<ScanRecord>): (count: nat)
    ensures count == |CriticalScans(history)|
    ensures count <= |history|
    ensures count == 0 <==> forall i :: 0 <= i < |history| ==> history[i].stockAtScan >= 10
  {
    FilterEmpty(history, StockBelow(10));
    |CriticalScans(history)|
  }

  /** Whether the chosen filter keeps a record. */
  function KeepFor(filter: HistoryFilter, isToday: string -> bool): ScanRecord -> bool {
    (r: ScanRecord) => if filter == Low then IsLowRecord(r) else if filter == Today then isToday(r.timestamp) else true
  }

  /** The records listed under the chosen filter: the first twenty that it keeps, never
      more, and always picked from the history in their original order. */
  function FilteredHistory(history: seq<ScanRecord>, filter: HistoryFilter, isToday: string -> bool): (shown: seq<ScanRecord>)
    ensures |shown| <= ShownLimit
    ensures IsSubsequence(shown, history)
  {
    var kept := Filter(history, KeepFor(filter, isToday));
    FilterIsSubsequence(history, KeepFor(filter, isToday));
    SubsequencePrefix(kept, history, Min(ShownLimit, |kept|));
    kept[..Min(ShownLimit, |kept|)]
  }

  /** Under the Low filter the list is the first twenty of the Low counter's records, and
      every listed record is below 20. */
  lemma LowFilterShowsOnlyLow(history: seq<ScanRecord>, isToday: string -> bool)
    ensures var low := LowStockScans(history);
      FilteredHistory(history, Low, isToday) == low[..Min(ShownLimit, |low|)]
    ensures forall i :: 0 <= i < |FilteredHistory(history, Low, isToday)| ==>
      FilteredHistory(history, Low, isToday)[i].stockAtScan < 20
  {
    FilterExtensional(history, KeepFor(Low, isToday), IsLowRecord);
    var kept := Filter(history, KeepFor(Low, isToday));
    var shown := FilteredHistory(history, Low, isToday);
    assert shown == kept[..|shown|];
    forall i | 0 <= i < |shown|
      ensures shown[i].stockAtScan < 20
    {
      assert KeepFor(Low, isToday)(kept[i]);
      assert IsLowRecord(kept[i]);
    }
  }

  /** Under the All filter the list is simply the twenty newest records. */
  lemma AllFilterShowsNewest(history: seq<ScanRecord>, isToday: string -> bool)
    ensures FilteredHistory(history, All, isToday) == history[..Min(ShownLimit, |history|)]
  {
    FilterIdentity(history, KeepFor(All, isToday));
  }

  /** Under the Today filter the list is the first twenty of the Today counter's records. */
  lemma TodayFilterShowsTodayScans(history: seq<ScanRecord>, isToday: string -> bool)
    ensures var today := TodayScans(history, isToday);
      FilteredHistory(history, Today, isToday) == today[..Min(ShownLimit, |today|)]
  {
    FilterExtensional(history, KeepFor(Today, isToday), ScannedToday(isToday));
  }

  /** The Low counter counts exactly the records whose snapshot is below 20. */
  lemma LowCountIsBelowTwenty(history: seq<ScanRecord>)
    ensures LowStockScans(history) == Filter(history, StockBelow(20))
  {
    FilterExtensional(history, IsLowRecord, StockBelow(20));
  }

  /** Every critical record (below 10) is also low, so the Crit counter never exceeds the
      Low counter. */
  lemma CriticalAtMostLow(history: seq<ScanRecord>)
    ensures IsSubsequence(Filter(history, StockBelow(10)), LowStockScans(history))
    ensures CriticalCount(history) <= |LowStockScans(history)|
  {
    LowCountIsBelowTwenty(history);
    FilterStronger(history, StockBelow(10), StockBelow(20));
  }
}
