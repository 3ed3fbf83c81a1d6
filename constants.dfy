/** The seed catalog and the local-storage keys of constants.ts. */
module Constants {
  import opened Types

  /** The six products the app can resolve a scan to. */
  const SampleInventory: seq<Product> := [
    Product(1, "Wireless Mouse M185", "WM-185-BLK", "4902778918856", 15, "A-12-3", 20),
    Product(2, "USB-C Cable 2m", "UC-200-WHT", "8901234567890", 78, "B-05-1", 30),
    Product(3, "Laptop Stand Aluminum", "LS-ALU-001", "5012345678900", 5, "C-08-2", 15),
    Product(4, "Bluetooth Keyboard", "KB-BT-500", "6923456789012", 42, "A-15-4", 25),
    Product(5, "HDMI Cable 3m", "HD-300-BLK", "7834567890123", 8, "B-11-5", 20),
    Product(6, "Desk Lamp LED", "DL-LED-W", "8745678901234", 65, "D-03-1", 15)
  ]

  /** The key the settings are stored under. */
  const SettingsKey: string := "inventory_app_settings"

  /** The key the scan history is stored under. */
  const HistoryKey: string := "inventory_app_history"

  /** Any two distinct products differ in id, in sku and in barcode, and no sku of one
      product is the barcode of another: a code names at most one product. */
  predicate CodesUnique(catalog: seq<Product>) {
    && (forall i, j :: 0 <= i < j < |catalog| ==> catalog[i].id != catalog[j].id)
    && (forall i, j :: 0 <= i < j < |catalog| ==> catalog[i].sku != catalog[j].sku)
    && (forall i, j :: 0 <= i < j < |catalog| ==> catalog[i].barcode != catalog[j].barcode)
    && (forall i, j :: 0 <= i < |catalog| && 0 <= j < |catalog| ==> catalog[i].sku != catalog[j].barcode)
  }

  /** The catalog holds six products numbered 1 to 6 in order. */
  lemma CatalogIds()
    ensures |SampleInventory| == 6
    ensures forall i :: 0 <= i < |SampleInventory| ==> SampleInventory[i].id == i + 1
  {
  }

  /** Every sku and barcode of the catalog identifies a single product. */
  lemma CatalogCodesUnique()
    ensures CodesUnique(SampleInventory)
  {
    CatalogIds();
    CatalogSkusDistinct();
    CatalogBarcodesDistinct();
    CatalogSkusAreNotBarcodes();
  }

  /** The skus begin with six different capital letters. */
  lemma CatalogSkusDistinct()
    ensures forall i, j :: 0 <= i < j < |SampleInventory| ==> SampleInventory[i].sku != SampleInventory[j].sku
  {
    var heads := seq(6, i requires 0 <= i < 6 => SampleInventory[i].sku[0]);
    assert heads == "WULKHD";
    forall i, j | 0 <= i < j < 6
      ensures SampleInventory[i].sku != SampleInventory[j].sku
    {
      assert heads[i] != heads[j];
    }
  }

  /** The barcodes begin with 4, 8, 5, 6, 7 and 8, and the two starting with 8 differ in
      their second digit. */
  lemma CatalogBarcodesDistinct()
    ensures forall i, j :: 0 <= i < j < |SampleInventory| ==> SampleInventory[i].barcode != SampleInventory[j].barcode
  {
    var heads := seq(6, i requires 0 <= i < 6 => (SampleInventory[i].barcode[0], SampleInventory[i].barcode[1]));
    assert heads == [('4', '9'), ('8', '9'), ('5', '0'), ('6', '9'), ('7', '8'), ('8', '7')];
    forall i, j | 0 <= i < j < 6
      ensures SampleInventory[i].barcode != SampleInventory[j].barcode
    {
      assert heads[i] != heads[j];
    }
  }

  /** Every sku begins with a letter and every barcode with a digit. */
  lemma CatalogSkusAreNotBarcodes()
    ensures forall i, j :: 0 <= i < |SampleInventory| && 0 <= j < |SampleInventory| ==>
      SampleInventory[i].sku != SampleInventory[j].barcode
  {
    assert forall i :: 0 <= i < 6 ==> 'A' <= SampleInventory[i].sku[0] <= 'Z';
    assert forall i :: 0 <= i < 6 ==> '0' <= SampleInventory[i].barcode[0] <= '9';
  }

  /** Stock counts and reorder thresholds of the catalog are never negative. */
  lemma CatalogCountsNonNegative()
    ensures forall p :: p in SampleInventory ==> p.stock >= 0 && p.threshold >= 0
  {
  }

  /** The two storage keys do not collide. */
  lemma StorageKeysDistinct()
    ensures SettingsKey != HistoryKey
  {
  }
}
