/** utils.ts: the stock classifier, its display styles, the WhatsApp alert link and the
    spreadsheet sync. */
module Utils {
  import opened Types
  import opened Strings

  // ---------------------------------------------------------------------------------
  // Stock classification
  // ---------------------------------------------------------------------------------

  /** The display tier of a stock count: more than 50 is healthy, 20 to 50 needs
      monitoring, below 20 is low. */
  function GetStockStatus(stock: int): (status: StockStatus)
    ensures status == HEALTHY <==> stock > 50
    ensures status == MONITOR <==> 20 <= stock <= 50
    ensures status == LOW <==> stock < 20
  {
    if stock > 50 then HEALTHY
    else if stock >= 20 then MONITOR
    else LOW
  }

  /** Orders the tiers from worst (0) to best (2). */
  function Rank(status: StockStatus): (r: nat)
    ensures r <= 2
  {
    match status
    case LOW => 0
    case MONITOR => 1
    case HEALTHY => 2
  }

  /** The tiers at the boundaries: 19 is low, 20 and 50 need monitoring, 51 is healthy. */
  lemma StatusBoundaries()
    ensures GetStockStatus(19) == LOW
    ensures GetStockStatus(20) == MONITOR && GetStockStatus(50) == MONITOR
    ensures GetStockStatus(51) == HEALTHY
  {
  }

  /** More stock never gives a worse tier. */
  lemma StatusMonotone(a: int, b: int)
    requires a <= b
    ensures Rank(GetStockStatus(a)) <= Rank(GetStockStatus(b))
  {
  }

  /** The text colour a tier is displayed in. */
  function GetStatusColor(status: StockStatus): (style: string)
    ensures |style| > 5 && style[..5] == "text-"
  {
    match status
    case HEALTHY => "text-green-500"
    case MONITOR => "text-yellow-500"
    case LOW => "text-red-500"
  }

  /** The background colour a tier is displayed in. */
  function GetStatusBg(status: StockStatus): (style: string)
    ensures |style| > 3 && style[..3] == "bg-"
  {
    match status
    case HEALTHY => "bg-green-500"
    case MONITOR => "bg-yellow-500"
    case LOW => "bg-red-500"
  }

  /** Each tier has its own text colour and its own background. */
  lemma StatusStylesDistinct(a: StockStatus, b: StockStatus)
    requires a != b
    ensures GetStatusColor(a) != GetStatusColor(b)
    ensures GetStatusBg(a) != GetStatusBg(b)
  {
    assert GetStatusColor(a)[5] != GetStatusColor(b)[5];
    assert GetStatusBg(a)[3] != GetStatusBg(b)[3];
  }

  /** A tier's text colour and background are the same hue. */
  lemma StatusStylesShareHue(s: StockStatus)
    ensures GetStatusColor(s)[5..] == GetStatusBg(s)[3..]
  {
  }

  // ---------------------------------------------------------------------------------
  // WhatsApp alert
  // ---------------------------------------------------------------------------------

  /** JavaScript's `s || fallback` on strings: only the empty string is falsy. */
  function OrElse(s: string, fallback: string): (r: string)
    ensures s != "" ==> r == s
    ensures s == "" ==> r == fallback
    ensures fallback != "" ==> r != ""
  {
    if s != "" then s else fallback
  }

  /** The severity wording, driven by the product's own reorder threshold. */
  function SeverityLabel(p: Product): (wording: string)
    ensures wording == "CRITICAL" <==> p.stock < p.threshold
    ensures wording == "CRITICAL" || wording == "LOW STOCK"
  {
    if p.stock < p.threshold then "CRITICAL" else "LOW STOCK"
  }

  const AlertTitle: string := "\U{26A0}\U{FE0F} INVENTORY ALERT"
  const RecommendationPrefix: string := "\U{1F4CB} Recommendation: Order "
  const ReporterPrefix: string := "Reported by: "

  /** The lines of the alert text; `date` is the local time the link was made. */
  function AlertLines(p: Product, settings: AppSettings, date: string): (lines: seq<string>)
    ensures |lines| == 13
  {
    [ AlertTitle,
      "   ",
      "Product: " + p.name,
      "SKU: " + p.sku,
      "Current Stock: " + ShowInt(p.stock) + " units",
      "Status: " + SeverityLabel(p),
      "Location: " + p.location,
      "Reorder Threshold: " + ShowInt(p.threshold) + " units",
      "",
      RecommendationPrefix + ShowInt(p.threshold * 2) + " units",
      "",
      ReporterPrefix + OrElse(settings.workerName, "Staff Member"),
      "Date: " + date ]
  }

  /** The alert text, one line per entry of AlertLines: it opens with the title on a line
      of its own and closes with the date. */
  function AlertMessage(p: Product, settings: AppSettings, date: string): (message: string)
    ensures |AlertTitle| + 1 <= |message| && message[..|AlertTitle| + 1] == AlertTitle + "\n"
    ensures |"Date: " + date| <= |message| && message[|message| - |"Date: " + date|..] == "Date: " + date
  {
    var lines := AlertLines(p, settings, date);
    JoinLinesAppend(lines[..12], [lines[12]]);
    assert lines == lines[..12] + [lines[12]];
    JoinLines(lines)
  }

  /** Where line `k` of the alert text begins (just before its leading newline). */
  function LineStart(p: Product, settings: AppSettings, date: string, k: nat): nat
    requires k <= 13
  {
    |JoinLines(AlertLines(p, settings, date)[..k])|
  }

  /** The alert text recommends ordering exactly twice the reorder threshold, on a line of
      its own, and the quantity written there reads back as that number. */
  lemma RecommendationIsTwiceThreshold(p: Product, settings: AppSettings, date: string)
    ensures var msg, at, qty := AlertMessage(p, settings, date), LineStart(p, settings, date, 9), ShowInt(p.threshold * 2);
      var line := RecommendationPrefix + qty + " units";
      at + |line| + 2 <= |msg| && msg[at..at + |line| + 2] == "\n" + line + "\n" &&
      ParseInt(qty) == Some(p.threshold * 2)
  {
    JoinedInnerLine(AlertLines(p, settings, date), 9);
    ParseShowInt(p.threshold * 2);
  }

  /** The alert text names the worker as reporter, or "Staff Member" when no name is set. */
  lemma ReporterFallsBack(p: Product, settings: AppSettings, date: string)
    ensures var msg, at := AlertMessage(p, settings, date), LineStart(p, settings, date, 11);
      var name := if settings.workerName == "" then "Staff Member" else settings.workerName;
      var line := ReporterPrefix + name;
      at + |line| + 2 <= |msg| && msg[at..at + |line| + 2] == "\n" + line + "\n"
  {
    JoinedInnerLine(AlertLines(p, settings, date), 11);
  }

  /** The alert text says CRITICAL exactly when stock is below the threshold. */
  lemma AlertStatesSeverity(p: Product, settings: AppSettings, date: string)
    ensures var msg, at := AlertMessage(p, settings, date), LineStart(p, settings, date, 5);
      var line := "Status: " + (if p.stock < p.threshold then "CRITICAL" else "LOW STOCK");
      at + |line| + 2 <= |msg| && msg[at..at + |line| + 2] == "\n" + line + "\n"
  {
    JoinedInnerLine(AlertLines(p, settings, date), 5);
  }

  /** The alert text reports the stock count so that it reads back unchanged. */
  lemma AlertStatesStock(p: Product, settings: AppSettings, date: string)
    ensures var msg, at, count := AlertMessage(p, settings, date), LineStart(p, settings, date, 4), ShowInt(p.stock);
      var line := "Current Stock: " + count + " units";
      at + |line| + 2 <= |msg| && msg[at..at + |line| + 2] == "\n" + line + "\n" &&
      ParseInt(count) == Some(p.stock)
  {
    JoinedInnerLine(AlertLines(p, settings, date), 4);
    ParseShowInt(p.stock);
  }

  /** The alert text names the product on a line of its own. */
  lemma AlertStatesName(p: Product, settings: AppSettings, date: string)
    ensures var msg, at := AlertMessage(p, settings, date), LineStart(p, settings, date, 2);
      var line := "Product: " + p.name;
      at + |line| + 2 <= |msg| && msg[at..at + |line| + 2] == "\n" + line + "\n"
  {
    JoinedInnerLine(AlertLines(p, settings, date), 2);
  }

  /** The alert text gives the product's sku on a line of its own. */
  lemma AlertStatesSku(p: Product, settings: AppSettings, date: string)
    ensures var msg, at := AlertMessage(p, settings, date), LineStart(p, settings, date, 3);
      var line := "SKU: " + p.sku;
      at + |line| + 2 <= |msg| && msg[at..at + |line| + 2] == "\n" + line + "\n"
  {
    JoinedInnerLine(AlertLines(p, settings, date), 3);
  }

  /** The alert text gives the product's warehouse location on a line of its own. */
  lemma AlertStatesLocation(p: Product, settings: AppSettings, date: string)
    ensures var msg, at := AlertMessage(p, settings, date), LineStart(p, settings, date, 6);
      var line := "Location: " + p.location;
      at + |line| + 2 <= |msg| && msg[at..at + |line| + 2] == "\n" + line + "\n"
  {
    JoinedInnerLine(AlertLines(p, settings, date), 6);
  }

  /** The alert text reports the reorder threshold so that it reads back unchanged. */
  lemma AlertStatesThreshold(p: Product, settings: AppSettings, date: string)
    ensures var msg, at, count := AlertMessage(p, settings, date), LineStart(p, settings, date, 7), ShowInt(p.threshold);
      var line := "Reorder Threshold: " + count + " units";
      at + |line| + 2 <= |msg| && msg[at..at + |line| + 2] == "\n" + line + "\n" &&
      ParseInt(count) == Some(p.threshold)
  {
    JoinedInnerLine(AlertLines(p, settings, date), 7);
    ParseShowInt(p.threshold);
  }

  const WhatsAppBase: string := "https://wa.me/"
  const TextParam: string := "?text="

  /** The deep link that opens a chat with the manager, prefilled with the alert text.
      `encode` is the platform's `encodeURIComponent`. */
  function WhatsAppLink(p: Product, settings: AppSettings, date: string, encode: string -> string): (link: string)
    ensures |WhatsAppBase| <= |link| && link[..|WhatsAppBase|] == WhatsAppBase
  {
    WhatsAppBase + DigitsOnly(settings.managerPhone) + TextParam + encode(AlertMessage(p, settings, date))
  }

  /** Splits a deep link back into the phone number it dials and the encoded text it
      carries; None when the link does not have that shape. */
  function ParseWhatsAppLink(link: string): (r: Option<(string, string)>)
  {
    if |link| < |WhatsAppBase| || link[..|WhatsAppBase|] != WhatsAppBase then None
    else
      var rest := link[|WhatsAppBase|..];
      match FirstIndex(rest, '?')
      case None => None
      case Some(q) =>
        if |rest| - q < |TextParam| || rest[q..q + |TextParam|] != TextParam then None
        else Some((rest[..q], rest[q + |TextParam|..]))
  }

  /** A link made of a digit string and a text splits back into exactly those two. */
  lemma LinkSplitsBack(phone: string, text: string)
    requires AllDigits(phone)
    ensures ParseWhatsAppLink(WhatsAppBase + phone + TextParam + text) == Some((phone, text))
  {
    var rest := phone + TextParam + text;
    var link := WhatsAppBase + rest;
    assert WhatsAppBase + phone + TextParam + text == link;
    assert link[..|WhatsAppBase|] == WhatsAppBase && link[|WhatsAppBase|..] == rest;
    assert forall j :: 0 <= j < |phone| ==> rest[j] == phone[j] && rest[j] != '?';
    assert rest[|phone|] == '?';
    assert FirstIndex(rest, '?') == Some(|phone|);
    assert rest[|phone|..|phone| + |TextParam|] == TextParam;
    assert rest[..|phone|] == phone && rest[|phone| + |TextParam|..] == text;
  }

  /** The link dials exactly the digits of the manager's phone, in order, and carries the
      encoded alert text: both are recovered from the link unchanged. */
  lemma WhatsAppLinkRoundTrip(p: Product, settings: AppSettings, date: string, encode: string -> string)
    ensures ParseWhatsAppLink(WhatsAppLink(p, settings, date, encode))
         == Some((DigitsOnly(settings.managerPhone), encode(AlertMessage(p, settings, date))))
  {
    LinkSplitsBack(DigitsOnly(settings.managerPhone), encode(AlertMessage(p, settings, date)));
  }

  // ---------------------------------------------------------------------------------
  // Spreadsheet sync
  // ---------------------------------------------------------------------------------

  /** The spreadsheet webhook every sync is posted to. */
  const WebhookUrl: string := "https://script.google.com/macros/s/AKfycbwM3CCw7_MsOVi2W-fj_o2tdxYb9Bc-8bvmnQRczOLUYP0nRfe9ZR9292f8LKUA5Q_g/exec"

  /** Why a sync is sent: a scan, or the connection test of the settings screen. */
  datatype ActionType = MANUAL_UPDATE | CONNECTION_TEST

  /** The flat record posted to the webhook; each field is commented with its key. */
  datatype SyncPayload = SyncPayload(
    sheetName: string,        // "Sheet Name"
    workerName: string,       // "Worker Name"
    itemName: string,         // "Item Name"
    sku: string,              // "SKU"
    barcode: string,          // "Barcode"
    warehouseBin: string,     // "Warehouse Bin"
    stockLevel: int,          // "Stock Level"
    stockStatus: string,      // "Stock Status"
    timestamp: string,        // "Timestamp"
    actionType: ActionType)   // "Action Type"

  /** The payload for `p`; `now` is the local time of the sync. */
  function BuildPayload(p: Product, settings: AppSettings, action: ActionType, now: string): (payload: SyncPayload)
    ensures payload.sheetName == "Form Webhook Data"
    ensures settings.workerName != "" ==> payload.workerName == settings.workerName
    ensures settings.workerName == "" ==> payload.workerName == "Anonymous"
    ensures payload.itemName == p.name && payload.sku == p.sku && payload.barcode == p.barcode
    ensures payload.warehouseBin == p.location && payload.stockLevel == p.stock
    ensures payload.stockStatus == "LOW" <==> p.stock < 20
    ensures payload.stockStatus == "MONITOR" <==> 20 <= p.stock <= 50
    ensures payload.stockStatus == "HEALTHY" <==> p.stock > 50
    ensures payload.timestamp == now && payload.actionType == action
  {
    SyncPayload(
      "Form Webhook Data",
      OrElse(settings.workerName, "Anonymous"),
      p.name, p.sku, p.barcode, p.location, p.stock,
      StatusName(GetStockStatus(p.stock)),
      now,
      action)
  }

  /** One POST to the webhook: where it went, what it carried, and whether it counts as a
      success. */
  datatype SyncAttempt = SyncAttempt(url: string, sent: SyncPayload, ok: bool)

  /** Posts the payload for `p`. `transportThrew` says whether the request raised an
      error; the response itself is never inspected. */
  function SyncToGoogleSheet(p: Product, settings: AppSettings, action: ActionType, now: string, transportThrew: bool): (r: SyncAttempt)
    ensures r.url == WebhookUrl
    ensures r.sent == BuildPayload(p, settings, action, now)
    ensures r.ok <==> !transportThrew
  {
    var payload := BuildPayload(p, settings, action, now);
    if transportThrew then SyncAttempt(WebhookUrl, payload, false)
    else SyncAttempt(WebhookUrl, payload, true)
  }

  /** The placeholder product of the connection test. */
  const TestProduct: Product := Product(0, "TEST PRODUCT", "DEBUG-999", "0000000000", 100, "SYSTEM-TEST", 10)

  /** Sends the placeholder product, tagged as a connection test, along the same path as a
      real sync. */
  function TestWebhookConnection(settings: AppSettings, now: string, transportThrew: bool): (r: SyncAttempt)
    ensures r == SyncToGoogleSheet(TestProduct, settings, CONNECTION_TEST, now, transportThrew)
    ensures r.sent.actionType == CONNECTION_TEST && r.sent.stockStatus == "HEALTHY"
    ensures r.sent.itemName == "TEST PRODUCT" && r.sent.sku == "DEBUG-999" && r.sent.stockLevel == 100
    ensures r.ok <==> !transportThrew
  {
    SyncToGoogleSheet(TestProduct, settings, CONNECTION_TEST, now, transportThrew)
  }
}
