/** App.tsx: resolving a scanned code against the catalog, recording the scan in the
    bounded history, syncing it, and the screen state that follows. */
module App {
  import opened Types
  import opened Constants
  import opened Seqs
  import Utils
  import ProductDetail

  // ---------------------------------------------------------------------------------
  // Catalog lookup
  // ---------------------------------------------------------------------------------

  /** A code names a product when it equals its barcode or its sku, exactly. */
  predicate MatchesCode(p: Product, code: string) {
    p.barcode == code || p.sku == code
  }

  /** The position of the first product that `code` names. */
  function FindIndex(catalog: seq<Product>, code: string): (r: Option<nat>)
    ensures r.Some? ==> r.value < |catalog| && MatchesCode(catalog[r.value], code)
    ensures r.Some? ==> forall j :: 0 <= j < r.value ==> !MatchesCode(catalog[j], code)
    ensures r.None? ==> forall j :: 0 <= j < |catalog| ==> !MatchesCode(catalog[j], code)
  {
    if catalog == [] then None
    else if MatchesCode(catalog[0], code) then Some(0)
    else match FindIndex(catalog[1..], code)
      case None => None
      case Some(i) => Some(i + 1)
  }

  /** `catalog.find(...)`: the first product that `code` names, or nothing. */
  function FindProduct(catalog: seq<Product>, code: string): (r: Option<Product>)
    ensures r.None? <==> forall p :: p in catalog ==> !MatchesCode(p, code)
    ensures r.Some? ==> r.value in catalog && MatchesCode(r.value, code)
    ensures r.Some? ==>
      exists i :: 0 <= i < |catalog| && catalog[i] == r.value && (forall j :: 0 <= j < i ==> !MatchesCode(catalog[j], code))
  {
    match FindIndex(catalog, code)
    case None => None
    case Some(i) => Some(catalog[i])
  }

  /** In a catalog whose codes are unique, whichever product a code names is the one
      found, wherever it sits. */
  lemma LookupUnambiguous(catalog: seq<Product>, code: string, i: nat)
    requires CodesUnique(catalog)
    requires i < |catalog| && MatchesCode(catalog[i], code)
    ensures FindProduct(catalog, code) == Some(catalog[i])
  {
    var k := FindIndex(catalog, code).value;
    if k != i {
      assert false;
    }
  }

  /** The seed catalog resolves product 1 by its barcode and by its sku. */
  lemma CatalogLookups()
    ensures FindProduct(SampleInventory, "4902778918856") == Some(SampleInventory[0])
    ensures FindProduct(SampleInventory, "WM-185-BLK") == Some(SampleInventory[0])
    ensures SampleInventory[0].id == 1
  {
    CatalogCodesUnique();
    LookupUnambiguous(SampleInventory, "4902778918856", 0);
    LookupUnambiguous(SampleInventory, "WM-185-BLK", 0);
  }

  /** The seed catalog knows nothing called "NOPE": every sku and barcode is longer. */
  lemma CatalogLookupMiss()
    ensures FindProduct(SampleInventory, "NOPE") == None
  {
    var lengths := seq(6, i requires 0 <= i < 6 => (|SampleInventory[i].sku|, |SampleInventory[i].barcode|));
    assert lengths == [(10, 13), (10, 13), (10, 13), (9, 13), (10, 13), (8, 13)];
    assert forall i :: 0 <= i < |SampleInventory| ==> !MatchesCode(SampleInventory[i], "NOPE");
  }

  // ---------------------------------------------------------------------------------
  // Scan history
  // ---------------------------------------------------------------------------------

  /** The history never keeps more than this many records. */
  const HistoryCap: nat := 50

  /** The record of a scan of `p`: its id, name, sku and stock as they were at the scan.
      `id` is a fresh random identifier and `timestamp` the instant of the scan. */
  function NewScanRecord(p: Product, id: string, timestamp: string): (rec: ScanRecord)
    ensures rec.productId == p.id && rec.productName == p.name && rec.sku == p.sku
    ensures rec.stockAtScan == p.stock
    ensures rec.id == id && rec.timestamp == timestamp
  {
    ScanRecord(id, p.id, p.name, p.sku, timestamp, p.stock)
  }

  /** `[rec, ...history].slice(0, 50)`: the new record first, then the old ones in order,
      dropping only the oldest once there are more than fifty. */
  function PushHistory(history: seq<ScanRecord>, rec: ScanRecord): (updated: seq<ScanRecord>)
    ensures |updated| == Min(|history| + 1, HistoryCap)
    ensures updated[0] == rec
    ensures updated[1..] == history[..|updated| - 1]
  {
    ([rec] + history)[..Min(|history| + 1, HistoryCap)]
  }

  /** The history after scanning the records of `recs`, first to last. */
  function ScanAll(history: seq<ScanRecord>, recs: seq<ScanRecord>): seq<ScanRecord>
    decreases |recs|
  {
    if recs == [] then history else ScanAll(PushHistory(history, recs[0]), recs[1..])
  }

  /** After any number of scans the history holds the newest records first, the oldest
      history records last, and at most fifty of them (given it started within the cap). */
  lemma {:induction false} ScanAllNewestFirst(history: seq<ScanRecord>, recs: seq<ScanRecord>)
    requires |history| <= HistoryCap
    ensures var all := Reversed(recs) + history;
      ScanAll(history, recs) == all[..Min(|all|, HistoryCap)]
    decreases |recs|
  {
    if recs == [] {
      assert Reversed(recs) + history == history;
    } else {
      var r, rest := recs[0], recs[1..];
      var pushed := PushHistory(history, r);
      ScanAllNewestFirst(pushed, rest);
      var all := Reversed(recs) + history;
      var pushedAll := Reversed(rest) + pushed;
      assert all == Reversed(rest) + ([r] + history);
      var n := Min(|all|, HistoryCap);
      assert pushedAll[..Min(|pushedAll|, HistoryCap)] == all[..n] by {
        assert |pushedAll| <= |all|;
        assert Min(|pushedAll|, HistoryCap) == n;
        forall i | 0 <= i < n
          ensures pushedAll[i] == all[i]
        {
          if i >= |Reversed(rest)| {
            var k := i - |Reversed(rest)|;
            assert pushed[k] == ([r] + history)[k];
          }
        }
      }
    }
  }

  // ---------------------------------------------------------------------------------
  // Device-local storage
  // ---------------------------------------------------------------------------------

  /** What a storage key can hold; serialisation is not modelled. */
  datatype Stored = SettingsBlob(settings: AppSettings) | HistoryBlob(records: seq<ScanRecord>)

  /** The settings before any are saved: no phone number, no worker name. */
  const DefaultSettings: AppSettings := AppSettings("", "")

  /** The settings a start-up reads back from storage. */
  function LoadSettings(storage: map<string, Stored>): (settings: AppSettings)
    ensures SettingsKey !in storage ==> settings == AppSettings("", "")
    ensures SettingsKey in storage && storage[SettingsKey].SettingsBlob? ==> settings == storage[SettingsKey].settings
  {
    if SettingsKey in storage && storage[SettingsKey].SettingsBlob? then storage[SettingsKey].settings
    else DefaultSettings
  }

  /** The history a start-up reads back from storage. */
  function LoadHistory(storage: map<string, Stored>): (history: seq<ScanRecord>)
    ensures HistoryKey !in storage ==> history == []
    ensures HistoryKey in storage && storage[HistoryKey].HistoryBlob? ==> history == storage[HistoryKey].records
  {
    if HistoryKey in storage && storage[HistoryKey].HistoryBlob? then storage[HistoryKey].records
    else []
  }

  /** Saving settings is read back by the next start-up, and leaves the saved history
      alone; saving a history likewise. */
  lemma StorageRoundTrip(storage: map<string, Stored>, s: AppSettings, h: seq<ScanRecord>)
    ensures LoadSettings(storage[SettingsKey := SettingsBlob(s)]) == s
    ensures LoadHistory(storage[SettingsKey := SettingsBlob(s)]) == LoadHistory(storage)
    ensures LoadHistory(storage[HistoryKey := HistoryBlob(h)]) == h
    ensures LoadSettings(storage[HistoryKey := HistoryBlob(h)]) == LoadSettings(storage)
  {
    StorageKeysDistinct();
  }

  // ---------------------------------------------------------------------------------
  // Screens
  // ---------------------------------------------------------------------------------

  /** What the main area shows. */
  datatype Screen = DashboardScreen | ScannerScreen | SettingsScreen | DetailScreen(product: Product)

  /** `renderView`: the detail screen needs an active product and falls back to the
      dashboard without one. */
  function RenderView(view: AppView, activeProduct: Option<Product>): (screen: Screen)
    ensures screen.DetailScreen? <==> view == PRODUCT_DETAIL && activeProduct.Some?
    ensures screen.DetailScreen? ==> screen.product == activeProduct.value
    ensures screen == DashboardScreen <==> view == DASHBOARD || (view == PRODUCT_DETAIL && activeProduct.None?)
    ensures screen == ScannerScreen <==> view == SCANNER
  {
    match view
    case DASHBOARD => DashboardScreen
    case SCANNER => ScannerScreen
    case SETTINGS => SettingsScreen
    case PRODUCT_DETAIL => if activeProduct.Some? then DetailScreen(activeProduct.value) else DashboardScreen
  }

  /** The bottom navigation bar is hidden only while scanning. */
  function NavBarShown(view: AppView): bool {
    view != SCANNER
  }

  /** The navigation bar is shown exactly when the main area is not the scanner. */
  lemma NavBarMatchesScreen(view: AppView, activeProduct: Option<Product>)
    ensures NavBarShown(view) <==> RenderView(view, activeProduct) != ScannerScreen
  {
  }

  /** The buttons that change screen: the navigation bar, the dashboard's scan button,
      the scanner's close button and the detail screen's back and rescan buttons. */
  datatype NavTarget = ToDashboard | ToScanner | ToSettings

  function TargetView(target: NavTarget): (view: AppView)
    ensures view != PRODUCT_DETAIL
  {
    match target
    case ToDashboard => DASHBOARD
    case ToScanner => SCANNER
    case ToSettings => SETTINGS
  }

  /** What a scan led to. */
  datatype ScanOutcome =
    | NotFound(message: string)
    | Found(product: Product, record: ScanRecord, sync: Utils.SyncAttempt)

  /** The state the app component holds. */
  class AppState {
    /** The products a scan can resolve to: SAMPLE_INVENTORY. */
    const catalog: seq<Product>
    var currentView: AppView
    var history: seq<ScanRecord>
    var settings: AppSettings
    var activeProduct: Option<Product>
    var syncing: bool
    var storage: map<string, Stored>

    /** Storage always holds what memory holds, the active product comes from the
        catalog, and the detail screen is only reached with a product to show. */
    ghost predicate Valid()
      reads this
    {
      && LoadSettings(storage) == settings
      && LoadHistory(storage) == history
      && (activeProduct.Some? ==> activeProduct.value in catalog)
      && (currentView == PRODUCT_DETAIL ==> activeProduct.Some?)
    }

    /** Start-up: the default state, then the settings and history found in storage. */
    constructor (stored: map<string, Stored>)
      ensures Valid()
      ensures catalog == SampleInventory
      ensures currentView == DASHBOARD && activeProduct == None && !syncing
      ensures storage == stored
      ensures settings == LoadSettings(stored) && history == LoadHistory(stored)
    {
      catalog := SampleInventory;
      currentView := DASHBOARD;
      history := [];
      settings := DefaultSettings;
      activeProduct := None;
      syncing := false;
      storage := stored;
      if SettingsKey in stored && stored[SettingsKey].SettingsBlob? {
        settings := stored[SettingsKey].settings;
      }
      if HistoryKey in stored && stored[HistoryKey].HistoryBlob? {
        history := stored[HistoryKey].records;
      }
    }

    /** `saveSettings`: adopt the new settings and store them. */
    method SaveSettings(newSettings: AppSettings)
      requires Valid()
      modifies this
      ensures Valid()
      ensures settings == newSettings
      ensures storage == old(storage)[SettingsKey := SettingsBlob(newSettings)]
      ensures history == old(history) && activeProduct == old(activeProduct)
      ensures currentView == old(currentView) && syncing == old(syncing)
    {
      settings := newSettings;
      storage := storage[SettingsKey := SettingsBlob(newSettings)];
      StorageRoundTrip(old(storage), newSettings, history);
    }

    /** A change of screen by one of the buttons. */
    method Navigate(target: NavTarget)
      requires Valid()
      modifies this
      ensures Valid()
      ensures currentView == TargetView(target)
      ensures history == old(history) && settings == old(settings) && storage == old(storage)
      ensures activeProduct == old(activeProduct) && syncing == old(syncing)
    {
      currentView := TargetView(target);
    }

    /** `handleScanSuccess`. On a miss nothing changes and the user is told. On a hit the
        product becomes active, its record is put in front of the history (kept to fifty)
        and stored, a sync is posted, and the detail screen opens whatever the sync's
        fate. `recordId` and `scannedAt` are the fresh id and the instant of the scan,
        `syncedAt` the local time of the sync, `transportThrew` whether the POST failed. */
    method HandleScanSuccess(code: string, recordId: string, scannedAt: string, syncedAt: string, transportThrew: bool)
      returns (outcome: ScanOutcome)
      requires Valid()
      modifies this
      ensures Valid()
      ensures settings == old(settings)
      ensures FindProduct(catalog, code).None? ==>
        && outcome == NotFound("Product not found: " + code)
        && history == old(history) && storage == old(storage)
        && activeProduct == old(activeProduct) && currentView == old(currentView)
        && syncing == old(syncing)
      ensures FindProduct(catalog, code).Some? ==>
        var p := FindProduct(catalog, code).value;
        var rec := NewScanRecord(p, recordId, scannedAt);
        && outcome == Found(p, rec, Utils.SyncToGoogleSheet(p, old(settings), Utils.MANUAL_UPDATE, syncedAt, transportThrew))
        && activeProduct == Some(p)
        && history == PushHistory(old(history), rec)
        && storage == old(storage)[HistoryKey := HistoryBlob(history)]
        && currentView == PRODUCT_DETAIL
        && syncing == !transportThrew
    {
      var found := FindProduct(catalog, code);
      if found.None? {
        outcome := NotFound("Product not found: " + code);
        return;
      }
      var product := found.value;
      activeProduct := Some(product);
      var newRecord := NewScanRecord(product, recordId, scannedAt);
      var updatedHistory := PushHistory(history, newRecord);
      history := updatedHistory;
      storage := storage[HistoryKey := HistoryBlob(updatedHistory)];
      StorageRoundTrip(old(storage), settings, updatedHistory);
      syncing := true;
      var sync := Utils.SyncToGoogleSheet(product, settings, Utils.MANUAL_UPDATE, syncedAt, transportThrew);
      currentView := PRODUCT_DETAIL;
      if !sync.ok {
        syncing := false;
      }
      outcome := Found(product, newRecord, sync);
    }

    /** What the main area shows now. */
    function CurrentScreen(): Screen
      reads this
    {
      RenderView(currentView, activeProduct)
    }

    /** In a valid state the detail screen never falls back to the dashboard. */
    lemma DetailNeverFallsBack()
      requires Valid()
      ensures currentView == PRODUCT_DETAIL ==> CurrentScreen() == DetailScreen(activeProduct.value)
    {
    }
  }

  /** Opening the detail screen for the active product and adjusting its stock changes only
      the screen's own copy: the app's active product and history are untouched. */
  method OpenDetailAndAdjust(app: AppState, amount: int) returns (detail: ProductDetail.ProductDetailView)
    requires app.Valid() && app.activeProduct.Some?
    ensures fresh(detail)
    ensures detail.product == ProductDetail.Adjusted(app.activeProduct.value, amount)
    ensures app.activeProduct == old(app.activeProduct) && app.history == old(app.history)
    ensures app.storage == old(app.storage)
  {
    detail := new ProductDetail.ProductDetailView(app.activeProduct.value, app.settings);
    detail.AdjustStock(amount);
  }
}
