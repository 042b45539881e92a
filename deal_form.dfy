/**
 * Helpers of the deal form: cleaning numeric text, case-insensitive header
 * and key lookup, the item path inside a SharePoint document library, the
 * record maps loaded from CSV rows with their lazy-load flags, the rows
 * logged to the Excel sheet and the e-mail recipient list.
 *
 * Downloads, CSV tokenising, regular-expression matching of list items and
 * the Qt widgets are not modelled: what they produce is an input.
 */
module DealForm {
  import opened Options
  import opened Text

  // ---------------------------------------------------------------------
  // Numeric text

  /** `clean_numeric_string`: `None` and '' give ''; otherwise strip, then drop every ',' and ' '. */
  function CleanNumericString(value: Option<string>): (r: string)
    ensures ',' !in r && ' ' !in r
    ensures value.None? || value.value == "" ==> r == ""
    ensures |r| <= (if value.Some? then |value.value| else 0)
  {
    if value.None? || value.value == "" then ""
    else
      var stripped := Strip(value.value);
      StripTrims(value.value);
      RemoveCharRemoves(stripped, ',');
      RemoveCharRemoves(RemoveChar(stripped, ','), ' ');
      RemoveChar(RemoveChar(stripped, ','), ' ')
  }

  /** Every character of the stripped text other than a comma or a space is in the result, and only those are. */
  lemma CleanedCharacters(s: string)
    requires s != ""
    ensures forall c :: c != ',' && c != ' ' ==> (c in CleanNumericString(Some(s)) <==> c in Strip(s))
  {
    RemoveCharRemoves(Strip(s), ',');
    RemoveCharRemoves(RemoveChar(Strip(s), ','), ' ');
  }

  /** Cleaning a result again changes nothing when it has no outer whitespace. */
  lemma CleanIdempotentWhenTrimmed(s: Option<string>)
    requires Trimmed(CleanNumericString(s))
    ensures CleanNumericString(Some(CleanNumericString(s))) == CleanNumericString(s)
  {
    var r := CleanNumericString(s);
    if r != "" {
      StripOfTrimmed(r);
      RemoveCharAbsent(r, ',');
      RemoveCharAbsent(r, ' ');
    }
  }

  /** Removing a comma can bring a tab to the front, which a second cleaning strips. */
  lemma CleanNotIdempotent()
    ensures CleanNumericString(Some(",\t5")) == "\t5"
    ensures CleanNumericString(Some("\t5")) == "5"
  {
    assert LStrip(",\t5") == ",\t5";
    assert RStrip(",\t5") == ",\t5";
    assert RemoveChar(",\t5", ',') == "\t5" by {
      assert RemoveChar("5", ',') == "5";
      assert RemoveChar("\t5", ',') == "\t5";
    }
    assert RemoveChar("\t5", ' ') == "\t5" by {
      assert RemoveChar("5", ' ') == "5";
    }
    assert LStrip("\t5") == LStrip("5") == "5";
    assert RemoveChar("5", ',') == "5" && RemoveChar("5", ' ') == "5";
  }

  // ---------------------------------------------------------------------
  // Header and key lookup

  /** The index of the first element equal to `x`. */
  function IndexOf<T(==)>(xs: seq<T>, x: T): (r: Option<nat>)
    ensures r.Some? ==> r.value < |xs| && xs[r.value] == x && forall j :: 0 <= j < r.value ==> xs[j] != x
    ensures r.None? ==> forall j :: 0 <= j < |xs| ==> xs[j] != x
  {
    if |xs| == 0 then None
    else if xs[0] == x then Some(0)
    else match IndexOf(xs[1..], x)
      case None => None
      case Some(k) => Some(k + 1)
  }

  /** A header as it is compared: `lstrip('﻿').strip().lower()`; `None` stays `None`. */
  function NormalHeader(header: Option<string>): Option<string>
  {
    if header.None? then None else Some(Lower(Strip(LStripChar(header.value, Bom))))
  }

  /** A candidate or key as it is compared: `lower().strip()`. */
  function NormalName(name: string): string
  {
    Strip(Lower(name))
  }

  /** The header matches the candidate; a `None` header never does. */
  predicate HeaderMatches(header: Option<string>, candidate: string)
  {
    NormalHeader(header) == Some(NormalName(candidate))
  }

  function NormalHeaders(headers: seq<Option<string>>): (r: seq<Option<string>>)
    ensures |r| == |headers|
  {
    seq(|headers|, i requires 0 <= i < |headers| => NormalHeader(headers[i]))
  }

  /** The first header matching one candidate. */
  function FirstHeaderIndex(headers: seq<Option<string>>, candidate: string): (r: Option<nat>)
    ensures r.Some? ==> r.value < |headers| && headers[r.value].Some?
  {
    var r := IndexOf(NormalHeaders(headers), Some(NormalName(candidate)));
    assert r.Some? ==> NormalHeaders(headers)[r.value] == NormalHeader(headers[r.value]);
    r
  }

  /** The index found is the first header that matches. */
  lemma FirstHeaderMatches(headers: seq<Option<string>>, candidate: string)
    ensures var r := FirstHeaderIndex(headers, candidate);
            (r.Some? ==> HeaderMatches(headers[r.value], candidate)
                         && forall j :: 0 <= j < r.value ==> !HeaderMatches(headers[j], candidate))
            && (r.None? ==> forall j :: 0 <= j < |headers| ==> !HeaderMatches(headers[j], candidate))
  {
    var norms := NormalHeaders(headers);
    assert forall j :: 0 <= j < |headers| ==> norms[j] == NormalHeader(headers[j]);
  }

  /**
   * Candidates from index `i` on, tried in order: the index of the
   * earliest candidate that some header matches.
   */
  function HeaderCandidate(headers: seq<Option<string>>, candidates: seq<string>, i: nat): (r: Option<nat>)
    requires i <= |candidates|
    ensures r.Some? ==> i <= r.value < |candidates| && FirstHeaderIndex(headers, candidates[r.value]).Some?
                        && forall k :: i <= k < r.value ==> FirstHeaderIndex(headers, candidates[k]).None?
    ensures r.None? ==> forall k :: i <= k < |candidates| ==> FirstHeaderIndex(headers, candidates[k]).None?
    decreases |candidates| - i
  {
    if i == |candidates| then None
    else if FirstHeaderIndex(headers, candidates[i]).Some? then Some(i)
    else HeaderCandidate(headers, candidates, i + 1)
  }

  /** `_find_header_key`: the header (as written in the file) matched by the earliest candidate that matches any. */
  function HeaderKey(headers: seq<Option<string>>, candidates: seq<string>): (r: Option<string>)
    ensures |headers| == 0 ==> r.None?
    ensures r.Some? ==> r in headers
  {
    if |headers| == 0 then None
    else match HeaderCandidate(headers, candidates, 0)
      case None => None
      case Some(c) => headers[FirstHeaderIndex(headers, candidates[c]).value]
  }

  /**
   * A found header is one of the headers, unnormalised, and matches a
   * candidate; none is found only for empty headers or when no header
   * matches any candidate.
   */
  lemma HeaderKeyFound(headers: seq<Option<string>>, candidates: seq<string>)
    ensures var r := HeaderKey(headers, candidates);
            (r.Some? ==> r in headers && exists c :: 0 <= c < |candidates| && HeaderMatches(r, candidates[c]))
            && (r.None? <==> forall c, j :: 0 <= c < |candidates| && 0 <= j < |headers| ==> !HeaderMatches(headers[j], candidates[c]))
  {
    var r := HeaderKey(headers, candidates);
    if |headers| > 0 {
      match HeaderCandidate(headers, candidates, 0) {
        case None =>
          forall c, j | 0 <= c < |candidates| && 0 <= j < |headers| ensures !HeaderMatches(headers[j], candidates[c]) {
            FirstHeaderMatches(headers, candidates[c]);
          }
        case Some(c) =>
          FirstHeaderMatches(headers, candidates[c]);
          var j := FirstHeaderIndex(headers, candidates[c]).value;
          assert HeaderMatches(headers[j], candidates[c]);
      }
    }
  }

  /** Candidates are tried in priority order: no earlier candidate matches any header. */
  lemma HeaderKeyPriority(headers: seq<Option<string>>, candidates: seq<string>, c: nat)
    requires |headers| > 0 && HeaderCandidate(headers, candidates, 0) == Some(c)
    ensures HeaderKey(headers, candidates) == headers[FirstHeaderIndex(headers, candidates[c]).value]
    ensures HeaderMatches(HeaderKey(headers, candidates), candidates[c])
    ensures forall k, j :: 0 <= k < c && 0 <= j < |headers| ==> !HeaderMatches(headers[j], candidates[k])
  {
    FirstHeaderMatches(headers, candidates[c]);
    forall k, j | 0 <= k < c && 0 <= j < |headers| ensures !HeaderMatches(headers[j], candidates[k]) {
      FirstHeaderMatches(headers, candidates[k]);
    }
  }

  /** The inner loop of `_find_header_key`: the first header matching one candidate. */
  method FirstMatchingHeader(headers: seq<Option<string>>, candidate: string) returns (r: Option<nat>)
    ensures r == FirstHeaderIndex(headers, candidate)
  {
    ghost var norms := NormalHeaders(headers);
    var target := Some(NormalName(candidate));
    var j := 0;
    while j < |headers| && NormalHeader(headers[j]) != target
      invariant 0 <= j <= |headers|
      invariant forall k :: 0 <= k < j ==> norms[k] != target
    {
      assert norms[j] == NormalHeader(headers[j]);
      j := j + 1;
    }
    if j < |headers| {
      assert norms[j] == NormalHeader(headers[j]);
      return Some(j);
    }
    return None;
  }

  /** `_find_header_key` as written: candidates in the outer loop, headers in the inner one. */
  method FindHeaderKey(headers: seq<Option<string>>, candidates: seq<string>) returns (r: Option<string>)
    ensures r == HeaderKey(headers, candidates)
  {
    if |headers| == 0 {
      return None;
    }
    var i := 0;
    while i < |candidates|
      invariant 0 <= i <= |candidates|
      invariant HeaderCandidate(headers, candidates, i) == HeaderCandidate(headers, candidates, 0)
    {
      var found := FirstMatchingHeader(headers, candidates[i]);
      if found.Some? {
        return headers[found.value];
      }
      i := i + 1;
    }
    return None;
  }

  /** `key.lower().strip() == target.lower().strip()` */
  predicate KeyMatches(key: string, target: string)
  {
    NormalName(key) == NormalName(target)
  }

  function NormalNames(keys: seq<string>): (r: seq<string>)
    ensures |r| == |keys| && forall i :: 0 <= i < |keys| ==> r[i] == NormalName(keys[i])
  {
    seq(|keys|, i requires 0 <= i < |keys| => NormalName(keys[i]))
  }

  /** The first of the dictionary's keys, in insertion order, matching the target. */
  function KeyIndex(keys: seq<string>, target: string): (r: Option<nat>)
    ensures r.Some? ==> r.value < |keys| && KeyMatches(keys[r.value], target)
                        && forall j :: 0 <= j < r.value ==> !KeyMatches(keys[j], target)
    ensures r.None? ==> forall j :: 0 <= j < |keys| ==> !KeyMatches(keys[j], target)
  {
    IndexOf(NormalNames(keys), NormalName(target))
  }

  function KeyLike(keys: seq<string>, target: string): (r: Option<string>)
    ensures r.Some? ==> r.value in keys && KeyMatches(r.value, target)
    ensures r.None? <==> forall k :: k in keys ==> !KeyMatches(k, target)
  {
    match KeyIndex(keys, target)
    case None => None
    case Some(i) => Some(keys[i])
  }

  /** `_find_key_case_insensitive` over the dictionary's keys in insertion order. */
  method FindKeyCaseInsensitive(keys: seq<string>, target: string) returns (r: Option<string>)
    ensures r == KeyLike(keys, target)
  {
    var normalised := NormalName(target);
    ghost var norms := NormalNames(keys);
    var i := 0;
    while i < |keys|
      invariant 0 <= i <= |keys|
      invariant forall j :: 0 <= j < i ==> norms[j] != normalised
    {
      if NormalName(keys[i]) == normalised {
        assert norms[i] == normalised;
        assert IndexOf(norms, normalised) == Some(i);
        return Some(keys[i]);
      }
      i := i + 1;
    }
    assert IndexOf(norms, normalised).None?;
    return None;
  }

  // ---------------------------------------------------------------------
  // SharePoint item path

  predicate DocumentLibrary(segment: string)
  {
    Lower(Strip(segment)) == "shared documents" || Lower(Strip(segment)) == "documents"
  }

  /**
   * `_get_item_path_from_sharepoint_url` from the URL's already decoded
   * path: the path below the site, without a leading document-library
   * segment; `None` unless 'sites' is a segment and there are at least
   * three.
   */
  function ItemPath(path: string): (r: Option<string>)
    ensures var parts := Split(StripChar(path, '/'), '/');
            r.Some? <==> "sites" in parts && |parts| > 2
  {
    var parts := Split(StripChar(path, '/'), '/');
    if "sites" in parts && |parts| > 2 then
      var afterSite := Join(parts[2..], '/');
      var segments := Split(afterSite, '/');
      if |segments| > 0 && DocumentLibrary(segments[0]) then Some(Join(segments[1..], '/'))
      else Some(afterSite)
    else None
  }

  /** The item path is the segments after the first two, less a leading library segment. */
  lemma ItemPathSegments(path: string)
    requires var parts := Split(StripChar(path, '/'), '/'); "sites" in parts && |parts| > 2
    ensures var parts := Split(StripChar(path, '/'), '/');
            ItemPath(path) == Some(Join(if DocumentLibrary(parts[2]) then parts[3..] else parts[2..], '/'))
  {
    var parts := Split(StripChar(path, '/'), '/');
    SplitPartsHaveNoSep(StripChar(path, '/'), '/');
    var below := parts[2..];
    assert forall k :: 0 <= k < |below| ==> '/' !in below[k] by {
      forall k | 0 <= k < |below| ensures '/' !in below[k] {
        assert below[k] == parts[k + 2];
      }
    }
    SplitJoin(below, '/');
    assert below[1..] == parts[3..];
  }

  // ---------------------------------------------------------------------
  // Record maps

  /**
   * A CSV row or a stored record: its keys in insertion order and their
   * values; `None` is the value of a column the row is too short for.
   */
  datatype Record = Record(order: seq<string>, fields: map<string, Option<string>>)

  /** `{k: (v.strip() if isinstance(v, str) else v) for k, v in row.items()}` */
  function TrimRecord(row: Record): (r: Record)
    ensures r.order == row.order && r.fields.Keys == row.fields.Keys
    ensures forall k :: k in r.fields ==> (r.fields[k].Some? <==> row.fields[k].Some?)
    ensures forall k :: k in r.fields && r.fields[k].Some? ==> r.fields[k].value == Strip(row.fields[k].value)
  {
    Record(row.order, map k | k in row.fields :: if row.fields[k].Some? then Some(Strip(row.fields[k].value)) else None)
  }

  /** `row.get(key, '').strip()`, or `None` where `.strip()` raises on a missing value. */
  function RowKey(row: Record, key: string): (r: Option<string>)
    ensures r.Some? ==> Trimmed(r.value)
  {
    if key !in row.fields then Some("")
    else match row.fields[key]
      case None => None
      case Some(s) => StripTrims(s); Some(Strip(s))
  }

  /** The map after the rows, and whether a row raised (the rows after it are not read). */
  datatype Absorbed = Absorbed(data: map<string, Record>, raised: bool)

  /** The loop of `_load_*_data`: each row with a non-blank key stores its trimmed record under it. */
  function Absorb(acc: map<string, Record>, rows: seq<Record>, key: string): (r: Absorbed)
    ensures acc.Keys <= r.data.Keys
    ensures forall k :: k in r.data && k !in acc ==> k != "" && Trimmed(k)
  {
    if |rows| == 0 then Absorbed(acc, false)
    else
      var before := Absorb(acc, rows[..|rows| - 1], key);
      if before.raised then before
      else match RowKey(rows[|rows| - 1], key)
        case None => Absorbed(before.data, true)
        case Some(k) =>
          if k == "" then before else Absorbed(before.data[k := TrimRecord(rows[|rows| - 1])], false)
  }

  /** When no row raises, a key the rows added is the key of some row. */
  lemma {:induction false} StoredKeyHasRow(acc: map<string, Record>, rows: seq<Record>, key: string, k: string)
    requires !Absorb(acc, rows, key).raised
    requires k in Absorb(acc, rows, key).data && k !in acc
    ensures exists i :: 0 <= i < |rows| && RowKey(rows[i], key) == Some(k)
  {
    var init := rows[..|rows| - 1];
    if RowKey(rows[|rows| - 1], key) != Some(k) {
      StoredKeyHasRow(acc, init, key, k);
      var i :| 0 <= i < |init| && RowKey(init[i], key) == Some(k);
      assert rows[i] == init[i];
    }
  }

  /**
   * When no row raises, a key holds the trimmed record of the last row with
   * that key: a later duplicate overwrites an earlier one.
   */
  lemma {:induction false} LastRowWins(acc: map<string, Record>, rows: seq<Record>, key: string, k: string, i: nat)
    requires !Absorb(acc, rows, key).raised && k != ""
    requires i < |rows| && RowKey(rows[i], key) == Some(k)
    requires forall j :: i < j < |rows| ==> RowKey(rows[j], key) != Some(k)
    ensures k in Absorb(acc, rows, key).data && Absorb(acc, rows, key).data[k] == TrimRecord(rows[i])
  {
    var init := rows[..|rows| - 1];
    var before := Absorb(acc, init, key);
    assert !before.raised;
    if i < |rows| - 1 {
      assert init[i] == rows[i];
      assert forall j :: i < j < |init| ==> init[j] == rows[j];
      LastRowWins(acc, init, key, k, i);
    }
  }

  /** A row whose key is blank is skipped; no other entry changes through it. */
  lemma BlankRowSkipped(acc: map<string, Record>, rows: seq<Record>, row: Record, key: string)
    requires RowKey(row, key) == Some("")
    ensures Absorb(acc, rows + [row], key) == Absorb(acc, rows, key)
  {
    assert (rows + [row])[..|rows|] == rows;
  }

  /** The four kinds of reference data the form loads. */
  datatype Kind = Customers | Salesmen | Equipment | Parts

  /** The name used for the download and the worker (`'products'` for equipment). */
  function ApiKey(kind: Kind): string
  {
    match kind
    case Customers => "customers"
    case Salesmen => "salesmen"
    case Equipment => "products"
    case Parts => "parts"
  }

  /** The tag the success callback is given (`'equipment'` for equipment). */
  function Tag(kind: Kind): string
  {
    match kind
    case Equipment => "equipment"
    case _ => ApiKey(kind)
  }

  function KindOfApiKey(s: string): (r: Option<Kind>)
    ensures r.Some? ==> ApiKey(r.value) == s
  {
    if s == "customers" then Some(Customers)
    else if s == "salesmen" then Some(Salesmen)
    else if s == "products" then Some(Equipment)
    else if s == "parts" then Some(Parts)
    else None
  }

  function KindOfTag(s: string): (r: Option<Kind>)
    ensures r.Some? ==> Tag(r.value) == s
  {
    if s == "customers" then Some(Customers)
    else if s == "salesmen" then Some(Salesmen)
    else if s == "equipment" then Some(Equipment)
    else if s == "parts" then Some(Parts)
    else None
  }

  /** Each kind is recognised by its own download name and its own tag. */
  lemma KindNamesRoundTrip(kind: Kind)
    ensures KindOfApiKey(ApiKey(kind)) == Some(kind)
    ensures KindOfTag(Tag(kind)) == Some(kind)
  {
  }

  /** Candidate key columns, in priority order. */
  function Candidates(kind: Kind): seq<string>
  {
    match kind
    case Customers => ["Name", "Customer Name", "CustomerName"]
    case Salesmen => ["Name", "Salesman Name", "SalesmanName"]
    case Equipment => ["ProductCode", "Product Code", "Code"]
    case Parts => ["Part Number", "Part No", "Part #", "PartNumber", "Number"]
  }

  /** What the download gave: nothing (`None` or ''), or the text with its parsed header and rows. */
  datatype Download =
    | NoContent
      /** `rawHeaders` is what `csv.reader` made of the header line; `rows` what `DictReader` made of the rest. */
    | Content(text: string, rawHeaders: seq<string>, rows: seq<Record>)

  /** `csv_content[:csv_content.find('\n')]`, the whole text when it has no line break. */
  function HeaderLine(text: string): (r: string)
    ensures r <= text && '\n' !in r
    ensures |r| < |text| ==> text[|r|] == '\n'
  {
    if |text| == 0 || text[0] == '\n' then ""
    else [text[0]] + HeaderLine(text[1..])
  }

  /** `[header.lstrip('﻿').strip() for header in raw_headers]` */
  function CleanHeaders(raw: seq<string>): (r: seq<Option<string>>)
    ensures |r| == |raw|
    ensures forall i :: 0 <= i < |raw| ==> r[i] == Some(Strip(LStripChar(raw[i], Bom)))
  {
    seq(|raw|, i requires 0 <= i < |raw| => Some(Strip(LStripChar(raw[i], Bom))))
  }

  /** The processing in `_fetch_and_process_data`: the new map, or `None` where it raises. */
  function Process(apiKey: string, download: Download): (r: Option<map<string, Record>>)
    ensures r.Some? ==> download.Content? && KindOfApiKey(apiKey).Some?
  {
    if download.NoContent? || download.text == "" then None
    else if Strip(HeaderLine(download.text)) == "" || |download.rawHeaders| == 0 then None
    else match KindOfApiKey(apiKey)
      case None => None
      case Some(kind) =>
        match HeaderKey(CleanHeaders(download.rawHeaders), Candidates(kind))
        case None => None
        case Some(key) =>
          if key == "" then None
          else
            var absorbed := Absorb(map[], download.rows, key);
            if absorbed.raised then None else Some(absorbed.data)
  }

  /** Every key of a processed map is non-blank and trimmed, and holds the trimmed record of the last row with that key. */
  lemma ProcessedKeys(apiKey: string, download: Download, k: string)
    requires Process(apiKey, download).Some? && k in Process(apiKey, download).value
    ensures k != "" && Trimmed(k)
    ensures exists i :: 0 <= i < |download.rows| && RowKey(download.rows[i], HeaderKey(CleanHeaders(download.rawHeaders), Candidates(KindOfApiKey(apiKey).value)).value) == Some(k)
                        && Process(apiKey, download).value[k] == TrimRecord(download.rows[i])
  {
    var kind := KindOfApiKey(apiKey).value;
    var key := HeaderKey(CleanHeaders(download.rawHeaders), Candidates(kind)).value;
    StoredKeyHasRow(map[], download.rows, key, k);
    var i := LastIndexWithKey(download.rows, key, k);
    LastRowWins(map[], download.rows, key, k, i);
  }

  /** The last row with a given key, when there is one. */
  lemma LastIndexWithKey(rows: seq<Record>, key: string, k: string) returns (i: nat)
    requires exists i :: 0 <= i < |rows| && RowKey(rows[i], key) == Some(k)
    ensures i < |rows| && RowKey(rows[i], key) == Some(k)
    ensures forall j :: i < j < |rows| ==> RowKey(rows[j], key) != Some(k)
  {
    var n := |rows| - 1;
    while RowKey(rows[n], key) != Some(k)
      invariant 0 <= n < |rows|
      invariant forall j :: n < j < |rows| ==> RowKey(rows[j], key) != Some(k)
      invariant exists i :: 0 <= i <= n && RowKey(rows[i], key) == Some(k)
      decreases n
    {
      n := n - 1;
    }
    i := n;
  }

  // ---------------------------------------------------------------------
  // The form's data and flags

  class DealFormView {
    var customersData: map<string, Record>
    var salesmenData: map<string, Record>
    var equipmentProductsData: map<string, Record>
    var partsData: map<string, Record>
    /** Set while a load is under way and after it has finished. */
    var customersLoaded: bool
    var salesmenLoaded: bool
    var equipmentLoaded: bool
    var partsLoaded: bool

    constructor ()
      ensures forall k :: DataOf(k) == map[] && !LoadedOf(k)
    {
      customersData, salesmenData, equipmentProductsData, partsData := map[], map[], map[], map[];
      customersLoaded, salesmenLoaded, equipmentLoaded, partsLoaded := false, false, false, false;
    }

    function DataOf(kind: Kind): map<string, Record>
      reads this
    {
      match kind
      case Customers => customersData
      case Salesmen => salesmenData
      case Equipment => equipmentProductsData
      case Parts => partsData
    }

    function LoadedOf(kind: Kind): bool
      reads this
    {
      match kind
      case Customers => customersLoaded
      case Salesmen => salesmenLoaded
      case Equipment => equipmentLoaded
      case Parts => partsLoaded
    }

    method SetLoaded(kind: Kind, value: bool)
      modifies this
      ensures LoadedOf(kind) == value
      ensures forall k :: k != kind ==> LoadedOf(k) == old(LoadedOf(k))
      ensures forall k :: DataOf(k) == old(DataOf(k))
    {
      match kind {
        case Customers => customersLoaded := value;
        case Salesmen => salesmenLoaded := value;
        case Equipment => equipmentLoaded := value;
        case Parts => partsLoaded := value;
      }
    }

    method SetData(kind: Kind, data: map<string, Record>)
      modifies this
      ensures DataOf(kind) == data
      ensures forall k :: k != kind ==> DataOf(k) == old(DataOf(k))
      ensures forall k :: LoadedOf(k) == old(LoadedOf(k))
    {
      match kind {
        case Customers => customersData := data;
        case Salesmen => salesmenData := data;
        case Equipment => equipmentProductsData := data;
        case Parts => partsData := data;
      }
    }

    /**
     * `load_*_async`: nothing happens while the flag is set; otherwise the
     * flag is set before the worker is dispatched.
     */
    method LoadAsync(kind: Kind) returns (dispatched: bool)
      modifies this
      ensures dispatched == !old(LoadedOf(kind))
      ensures LoadedOf(kind)
      ensures forall k :: k != kind ==> LoadedOf(k) == old(LoadedOf(k))
      ensures forall k :: DataOf(k) == old(DataOf(k))
    {
      if LoadedOf(kind) {
        return false;
      }
      SetLoaded(kind, true);
      return true;
    }

    /**
     * `_fetch_and_process_data`: the processed map, or `None` where it
     * raises, in which case the flag of the kind named by `apiKey` is reset.
     */
    method FetchAndProcess(apiKey: string, download: Download) returns (r: Option<map<string, Record>>)
      modifies this
      ensures r == Process(apiKey, download)
      ensures r.None? && KindOfApiKey(apiKey).Some? ==> !LoadedOf(KindOfApiKey(apiKey).value)
      ensures forall k :: (r.Some? || KindOfApiKey(apiKey) != Some(k)) ==> LoadedOf(k) == old(LoadedOf(k))
      ensures forall k :: DataOf(k) == old(DataOf(k))
    {
      r := Process(apiKey, download);
      if r.None? {
        var kind := KindOfApiKey(apiKey);
        if kind.Some? {
          SetLoaded(kind.value, false);
        }
      }
    }

    /** `_on_data_loaded_success`: a known tag stores the map and marks the kind loaded. */
    method OnDataLoadedSuccess(tag: string, result: map<string, Record>)
      modifies this
      ensures KindOfTag(tag).Some? ==> DataOf(KindOfTag(tag).value) == result && LoadedOf(KindOfTag(tag).value)
      ensures forall k :: KindOfTag(tag) != Some(k) ==> DataOf(k) == old(DataOf(k)) && LoadedOf(k) == old(LoadedOf(k))
    {
      var kind := KindOfTag(tag);
      if kind.Some? {
        SetLoaded(kind.value, true);
        SetData(kind.value, result);
      }
    }

    /**
     * `_load_*_data` over the rows of a local file: nothing without a key
     * column; otherwise rows are absorbed into the kind's map until one
     * raises, which `raised` reports (the earlier rows stay stored).
     */
    method LoadData(kind: Kind, headers: seq<Option<string>>, rows: seq<Record>) returns (raised: bool)
      modifies this
      ensures var key := HeaderKey(headers, Candidates(kind));
              if key.None? || key.value == "" then
                !raised && DataOf(kind) == old(DataOf(kind))
              else
                Absorbed(DataOf(kind), raised) == Absorb(old(DataOf(kind)), rows, key.value)
      ensures forall k :: k != kind ==> DataOf(k) == old(DataOf(k))
      ensures forall k :: LoadedOf(k) == old(LoadedOf(k))
    {
      var key := FindHeaderKey(headers, Candidates(kind));
      if key.None? || key.value == "" {
        return false;
      }
      var data := DataOf(kind);
      ghost var start := data;
      raised := false;
      var i := 0;
      while i < |rows|
        invariant 0 <= i <= |rows|
        invariant Absorb(start, rows[..i], key.value) == Absorbed(data, false)
      {
        assert rows[..i + 1][..i] == rows[..i];
        var rowKey := RowKey(rows[i], key.value);
        if rowKey.None? {
          SetData(kind, data);
          AbsorbStopsAtRaise(start, rows, key.value, i + 1);
          return true;
        }
        if rowKey.value != "" {
          data := data[rowKey.value := TrimRecord(rows[i])];
        }
        i := i + 1;
      }
      assert rows[..i] == rows;
      SetData(kind, data);
    }
  }

  /** Once a row raises, later rows change nothing. */
  lemma {:induction false} AbsorbStopsAtRaise(acc: map<string, Record>, rows: seq<Record>, key: string, n: nat)
    requires n <= |rows| && Absorb(acc, rows[..n], key).raised
    ensures Absorb(acc, rows, key) == Absorb(acc, rows[..n], key)
    decreases |rows| - n
  {
    if n < |rows| {
      assert rows[..n + 1][..n] == rows[..n];
      AbsorbStopsAtRaise(acc, rows, key, n + 1);
    } else {
      assert rows[..n] == rows;
    }
  }

  // ---------------------------------------------------------------------
  // Rows logged to the Excel sheet

  /** An equipment or trade list item as its text is matched: quoted name, `STK#`, `$` price. */
  datatype Item = Item(name: string, stock: string, price: Option<string>)

  /** The values shared by the rows of one deal. */
  datatype RowContext = RowContext(payment: string, customer: string, salesperson: string,
                                   emailDate: string, status: string, timestamp: string, rowIdBase: string)

  datatype ExcelRow = ExcelRow(
    payment: string, customerName: string, equipment: string, stockNumber: string, amount: string,
    trade: string, attachedToStk: string, tradeStk: string, amount2: string,
    salesperson: string, emailDate: string, status: string, timestamp: string, rowId: string)

  /** `f"{row_id_base}-{n}"` */
  function RowId(base: string, n: nat): string
  {
    base + "-" + NatToString(n)
  }

  /** Two row numbers give the same Row ID only if they are equal. */
  lemma RowIdInjective(base: string, a: nat, b: nat)
    requires RowId(base, a) == RowId(base, b)
    ensures a == b
  {
    var p := base + "-";
    assert NatToString(a) == RowId(base, a)[|p|..];
    assert NatToString(b) == RowId(base, b)[|p|..];
    NatToStringInjective(a, b);
  }

  /** The price text without its commas, "0.00" when the item shows none. */
  function Amount(price: Option<string>): string
  {
    match price
    case None => "0.00"
    case Some(p) => RemoveChar(p, ',')
  }

  /** The columns every row of one deal shares. */
  predicate SharesContext(row: ExcelRow, ctx: RowContext, n: nat)
  {
    row.payment == ctx.payment && row.customerName == ctx.customer && row.salesperson == ctx.salesperson
    && row.emailDate == ctx.emailDate && row.status == ctx.status && row.timestamp == ctx.timestamp
    && row.rowId == RowId(ctx.rowIdBase, n) && row.attachedToStk == ""
  }

  function EquipmentRow(ctx: RowContext, item: Item, n: nat): (r: ExcelRow)
    ensures SharesContext(r, ctx, n)
    ensures r.equipment == item.name && r.stockNumber == item.stock && r.amount == Amount(item.price)
    ensures r.trade == "" && r.tradeStk == "" && r.amount2 == ""
  {
    ExcelRow(ctx.payment, ctx.customer, item.name, item.stock, Amount(item.price), "", "", "", "",
             ctx.salesperson, ctx.emailDate, ctx.status, ctx.timestamp, RowId(ctx.rowIdBase, n))
  }

  function TradeRow(ctx: RowContext, item: Item, n: nat): (r: ExcelRow)
    ensures SharesContext(r, ctx, n)
    ensures r.trade == item.name && r.tradeStk == item.stock && r.amount2 == Amount(item.price)
    ensures r.equipment == "" && r.stockNumber == "" && r.amount == ""
  {
    ExcelRow(ctx.payment, ctx.customer, "", "", "", item.name, "", item.stock, Amount(item.price),
             ctx.salesperson, ctx.emailDate, ctx.status, ctx.timestamp, RowId(ctx.rowIdBase, n))
  }

  function BaseRow(ctx: RowContext): (r: ExcelRow)
    ensures SharesContext(r, ctx, 1)
    ensures r.equipment == "" && r.stockNumber == "" && r.amount == ""
            && r.trade == "" && r.tradeStk == "" && r.amount2 == ""
  {
    ExcelRow(ctx.payment, ctx.customer, "", "", "", "", "", "", "",
             ctx.salesperson, ctx.emailDate, ctx.status, ctx.timestamp, RowId(ctx.rowIdBase, 1))
  }

  function Context(paid: bool, customerText: string, salespersonText: string,
                   emailDate: string, timestamp: string, rowIdBase: string): RowContext
  {
    RowContext(if paid then "YES" else "NO", Strip(customerText), Strip(salespersonText),
               emailDate, if paid then "Paid" else "Not Paid", timestamp, rowIdBase)
  }

  /**
   * The rows of `log_deal_to_sharepoint`: one per equipment item, then one
   * per trade, numbered 1..n; a single base row only when there are no
   * items and a customer or salesperson is given.
   */
  method BuildExcelRows(ctx: RowContext, equipment: seq<Item>, trades: seq<Item>) returns (rows: seq<ExcelRow>)
    ensures |equipment| + |trades| > 0 ==> |rows| == |equipment| + |trades|
    ensures |equipment| + |trades| == 0 ==>
              rows == (if ctx.customer != "" || ctx.salesperson != "" then [BaseRow(ctx)] else [])
    ensures forall i :: 0 <= i < |equipment| ==> rows[i] == EquipmentRow(ctx, equipment[i], i + 1)
    ensures forall i :: 0 <= i < |trades| ==> rows[|equipment| + i] == TradeRow(ctx, trades[i], |equipment| + i + 1)
    ensures forall i :: 0 <= i < |rows| ==> rows[i].rowId == RowId(ctx.rowIdBase, i + 1)
  {
    rows := [];
    var counter := 0;
    for i := 0 to |equipment|
      invariant counter == i && |rows| == i
      invariant forall k :: 0 <= k < i ==> rows[k] == EquipmentRow(ctx, equipment[k], k + 1)
    {
      counter := counter + 1;
      rows := rows + [EquipmentRow(ctx, equipment[i], counter)];
    }
    for i := 0 to |trades|
      invariant counter == |equipment| + i && |rows| == counter
      invariant forall k :: 0 <= k < |equipment| ==> rows[k] == EquipmentRow(ctx, equipment[k], k + 1)
      invariant forall k :: 0 <= k < i ==> rows[|equipment| + k] == TradeRow(ctx, trades[k], |equipment| + k + 1)
    {
      counter := counter + 1;
      rows := rows + [TradeRow(ctx, trades[i], counter)];
    }
    if |rows| == 0 && (ctx.customer != "" || ctx.salesperson != "") {
      counter := counter + 1;
      rows := rows + [BaseRow(ctx)];
    }
    forall i | 0 <= i < |rows| ensures rows[i].rowId == RowId(ctx.rowIdBase, i + 1) {
      if i >= |equipment| && |equipment| + |trades| > 0 {
        assert rows[|equipment| + (i - |equipment|)] == TradeRow(ctx, trades[i - |equipment|], i + 1);
      }
    }
  }

  /** Row IDs of one deal are pairwise different. */
  lemma RowIdsDistinct(rows: seq<ExcelRow>, base: string)
    requires forall i :: 0 <= i < |rows| ==> rows[i].rowId == RowId(base, i + 1)
    ensures forall i, j :: 0 <= i < j < |rows| ==> rows[i].rowId != rows[j].rowId
  {
    forall i, j | 0 <= i < j < |rows| ensures rows[i].rowId != rows[j].rowId {
      if rows[i].rowId == rows[j].rowId {
        RowIdInjective(base, i + 1, j + 1);
      }
    }
  }

  /**
   * `log_deal_to_sharepoint` up to the upload: `False` without a ready
   * service, with an invalid form or with no rows; otherwise the rows are
   * uploaded and the upload's answer returned. `savesToRecent` is whether a
   * successful upload goes on to save the deal to the recent-deals log
   * (`RecentDeals.SaveDealToRecent`, with the CSV flag set and the e-mail
   * flag clear); the save's own outcome only raises a warning.
   */
  method LogDealToSharePoint(serviceReady: bool, formValid: bool, paid: bool, customerText: string,
                             salespersonText: string, emailDate: string, timestamp: string, rowIdBase: string,
                             equipment: seq<Item>, trades: seq<Item>, uploadSucceeds: bool,
                             calledFromGenerateAll: bool)
    returns (ok: bool, uploaded: Option<seq<ExcelRow>>, savesToRecent: bool)
    ensures !serviceReady || !formValid ==> !ok && uploaded == None
    ensures uploaded.Some? ==> ok == uploadSucceeds && |uploaded.value| > 0
    ensures ok ==> uploaded.Some?
    ensures serviceReady && formValid && |equipment| + |trades| > 0 ==> uploaded.Some? && |uploaded.value| == |equipment| + |trades|
    ensures serviceReady && formValid && |equipment| + |trades| == 0 ==>
              (uploaded.Some? <==> Strip(customerText) != "" || Strip(salespersonText) != "")
    ensures uploaded.Some? ==> forall i, j :: 0 <= i < j < |uploaded.value| ==> uploaded.value[i].rowId != uploaded.value[j].rowId
    ensures uploaded.Some? ==>
              var ctx := Context(paid, customerText, salespersonText, emailDate, timestamp, rowIdBase);
              (forall i :: 0 <= i < |equipment| ==> uploaded.value[i] == EquipmentRow(ctx, equipment[i], i + 1))
              && (forall i :: 0 <= i < |trades| ==>
                    uploaded.value[|equipment| + i] == TradeRow(ctx, trades[i], |equipment| + i + 1))
              && (|equipment| + |trades| == 0 ==> uploaded.value == [BaseRow(ctx)])
    ensures savesToRecent == (ok && !calledFromGenerateAll)
  {
    if !serviceReady || !formValid {
      return false, None, false;
    }
    var ctx := Context(paid, customerText, salespersonText, emailDate, timestamp, rowIdBase);
    var rows := BuildExcelRows(ctx, equipment, trades);
    if |rows| == 0 {
      return false, None, false;
    }
    RowIdsDistinct(rows, rowIdBase);
    ok, uploaded := uploadSucceeds, Some(rows);
    savesToRecent := ok && !calledFromGenerateAll;
  }

  // ---------------------------------------------------------------------
  // E-mail recipients

  const DealsRecipient: string := "amsdeals@briltd.com"
  const PartsRecipient: string := "amsparts@briltd.com"
  const EmailKeys: seq<string> := ["Email", "Email Address", "E-mail", "Salesperson Email", "salesman_email"]

  /** What the salesman lookup of `generate_email` finds. */
  datatype EmailLookup = NoEmail | Email(address: string) | LookupRaises

  /** The first of the e-mail key names present (case-insensitively) in the record. */
  function EmailKeyFrom(order: seq<string>, names: seq<string>): (r: Option<string>)
    ensures r.Some? ==> r.value in order && exists n :: n in names && KeyMatches(r.value, n)
    ensures r.None? <==> forall n :: n in names ==> KeyLike(order, n).None?
  {
    if |names| == 0 then None
    else match KeyLike(order, names[0])
      case Some(k) => Some(k)
      case None => EmailKeyFrom(order, names[1..])
  }

  /**
   * The salesman's e-mail: looked up by the stripped name, through the
   * first e-mail key the record has, and stripped; a missing value raises.
   */
  function SalesmanEmail(salespersonText: string, salesmen: map<string, Record>): (r: EmailLookup)
    ensures r.Email? ==> Strip(salespersonText) in salesmen && r.address == Strip(r.address)
    ensures r.Email? || r.LookupRaises? ==>
              Strip(salespersonText) != "" && Strip(salespersonText) in salesmen
              && var info := salesmen[Strip(salespersonText)];
                 var key := EmailKeyFrom(info.order, EmailKeys);
                 |info.fields| > 0 && key.Some? && key.value in info.fields
                 && (r.Email? <==> info.fields[key.value].Some?)
                 && (r.Email? ==> r.address == Strip(info.fields[key.value].value))
    ensures Strip(salespersonText) == "" || Strip(salespersonText) !in salesmen ==> r == NoEmail
    ensures Strip(salespersonText) in salesmen
            && (forall n :: n in EmailKeys ==> KeyLike(salesmen[Strip(salespersonText)].order, n).None?)
            ==> r == NoEmail
    ensures Strip(salespersonText) != "" && Strip(salespersonText) in salesmen
            && |salesmen[Strip(salespersonText)].fields| > 0
            && EmailKeyFrom(salesmen[Strip(salespersonText)].order, EmailKeys).Some?
            && EmailKeyFrom(salesmen[Strip(salespersonText)].order, EmailKeys).value
               in salesmen[Strip(salespersonText)].fields
            ==> r != NoEmail
  {
    var name := Strip(salespersonText);
    if name == "" || name !in salesmen || |salesmen[name].fields| == 0 then NoEmail
    else
      var info := salesmen[name];
      match EmailKeyFrom(info.order, EmailKeys)
      case None => NoEmail
      case Some(key) =>
        if key !in info.fields then NoEmail
        else match info.fields[key]
          case None => LookupRaises
          case Some(v) =>
            StripIdempotent(v);
            Email(Strip(v))
  }

  /** Contains '@' and a '.' after the last '@'. */
  predicate PlausibleEmail(e: string)
  {
    '@' in e && '.' in Split(e, '@')[|Split(e, '@')| - 1]
  }

  /** Whether the salesman's address is added. */
  predicate AddsSalesman(salesmanEmail: EmailLookup)
  {
    salesmanEmail.Email? && salesmanEmail.address != "" && PlausibleEmail(salesmanEmail.address)
  }

  /** The recipient list built from whether the salesman's address is added and that address. */
  function RecipientList(addsSalesman: bool, address: string, partCount: nat): (r: seq<string>)
    ensures 1 <= |r| <= 3 && r[0] == DealsRecipient
    ensures partCount > 0 ==> PartsRecipient in r
  {
    var base := [DealsRecipient] + (if addsSalesman then [address] else []);
    if partCount > 0 && PartsRecipient !in base then base + [PartsRecipient] else base
  }

  /** The recipient list of `generate_email`; a lookup that raises never gets here. */
  function Recipients(salesmanEmail: EmailLookup, partCount: nat): (r: seq<string>)
    requires !salesmanEmail.LookupRaises?
    ensures 1 <= |r| <= 3 && r[0] == DealsRecipient
    ensures partCount > 0 ==> PartsRecipient in r
  {
    RecipientList(AddsSalesman(salesmanEmail), if salesmanEmail.Email? then salesmanEmail.address else "", partCount)
  }

  /** The shape of the recipient list, in terms of whether the salesman's address is added. */
  lemma RecipientListShape(adds: bool, address: string, partCount: nat)
    ensures var r := RecipientList(adds, address, partCount);
            (adds ==> |r| >= 2 && r[1] == address)
            && (forall e :: e in r && e != DealsRecipient && e != PartsRecipient ==> adds && e == address)
            && (PartsRecipient in r <==> partCount > 0 || (adds && address == PartsRecipient))
            && multiset(r)[PartsRecipient] <= 1
  {
    assert DealsRecipient != PartsRecipient;
    var base := [DealsRecipient] + (if adds then [address] else []);
    assert PartsRecipient in base <==> adds && address == PartsRecipient;
  }

  /**
   * The deals mailbox comes first, then the salesman's plausible address;
   * the parts mailbox is present exactly when there are parts or it was the
   * salesman's address, and never twice.
   */
  lemma RecipientsShape(salesmanEmail: EmailLookup, partCount: nat)
    requires !salesmanEmail.LookupRaises?
    ensures var r := Recipients(salesmanEmail, partCount);
            |r| >= 1 && r[0] == DealsRecipient && |r| <= 3
            && (AddsSalesman(salesmanEmail) ==> |r| >= 2 && r[1] == salesmanEmail.address)
            && (forall e :: e in r && e != DealsRecipient && e != PartsRecipient ==> salesmanEmail == Email(e))
            && (PartsRecipient in r <==> partCount > 0 || (AddsSalesman(salesmanEmail) && salesmanEmail.address == PartsRecipient))
            && multiset(r)[PartsRecipient] <= 1
  {
    RecipientListShape(AddsSalesman(salesmanEmail), if salesmanEmail.Email? then salesmanEmail.address else "", partCount);
  }
}
