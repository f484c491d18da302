/**
 One CSV row turned into one synthetic browser-monitor document
 (`create_monitor_json_content`). The row is a map from column name to
 cell text; a column the row does not have is simply absent from the map.
 The document is a datatype whose shape mirrors the JSON object the
 converter dumps; the sub-documents that never vary are constants.
 */
module MonitorConfig {
  import opened Wrappers
  import opened Text

  type Row = map<string, string>

  const Contextless := "CONTEXTLESS"
  const DefaultLocation := "GEOLOCATION-7F39AED31559436D"
  const SentinelKey := "MonacoCsvGenerated"
  const DefaultEnabled := "true"
  const DefaultFrequency := 60
  const DefaultName := "Unnamed Monitor"
  const DefaultUrl := "https://www.dynatrace.com"
  const DefaultScriptType := "availability"

  /** A tag entry; a tag made from a custom entry without a colon has no value field. */
  datatype Tag = Tag(context: string, key: string, value: Option<string>)

  const SentinelTag := Tag(Contextless, SentinelKey, None)

  datatype OutageHandling = OutageHandling(
    globalOutage: bool,
    globalOutageConsecutiveRuns: int,
    localOutage: bool,
    localAffectedLocations: Option<int>,
    localConsecutiveRuns: Option<int>,
    retryOnError: bool)

  datatype AnomalyDetection = AnomalyDetection(
    loadingTimeThresholdsEnabled: bool,
    loadingTimeThresholds: seq<int>,
    outageHandling: OutageHandling)

  datatype KeyPerformanceMetrics = KeyPerformanceMetrics(loadActionKpm: string, xhrActionKpm: string)

  datatype ScriptConfiguration = ScriptConfiguration(
    networkType: string,
    disableWebSecurity: bool,
    deviceName: string,
    orientation: string)

  /** One step of the monitor's script. */
  datatype ScriptEvent = ScriptEvent(description: string, eventType: string, url: string, waitFor: string)

  datatype Script = Script(
    configuration: ScriptConfiguration,
    events: seq<ScriptEvent>,
    scriptType: string,
    version: string)

  /** The monitor document, field for field in the order the JSON object lists them. */
  datatype MonitorDoc = MonitorDoc(
    anomalyDetection: AnomalyDetection,
    automaticallyAssignedApps: seq<string>,
    enabled: bool,
    events: seq<ScriptEvent>,
    frequencyMin: int,
    keyPerformanceMetrics: KeyPerformanceMetrics,
    locations: seq<string>,
    managementZones: seq<string>,
    manuallyAssignedApps: seq<string>,
    name: string,
    script: Script,
    tags: seq<Tag>,
    monitorType: string)

  const FixedAnomalyDetection := AnomalyDetection(
    false, [], OutageHandling(true, 1, false, None, None, true))

  const FixedKeyPerformanceMetrics := KeyPerformanceMetrics("VISUALLY_COMPLETE", "VISUALLY_COMPLETE")

  const FixedScriptConfiguration := ScriptConfiguration("WiFi", false, "Desktop", "landscape")

  // ---------------------------------------------------------------------
  // Reading cells

  /** `row.get(col, default)`: the cell if the column is there, even when empty. */
  function Get(row: Row, col: string, default: string): string {
    if col in row then row[col] else default
  }

  /** `row.get(col)` is truthy: the column is there and its cell is not empty. */
  predicate Truthy(row: Row, col: string) {
    col in row && row[col] != ""
  }

  /** `value and value.strip()`: the column is there and holds more than white space. */
  predicate NonBlank(row: Row, col: string) {
    col in row && !AllSpace(row[col])
  }

  // ---------------------------------------------------------------------
  // Semicolon lists

  /** What a list cell may hold after parsing: non-empty, stripped, no `;`. */
  predicate IsEntry(e: string) {
    e != [] && IsStripped(e) && ';' !in e
  }

  /** `[p.strip() for p in pieces if p.strip()]`. */
  function StrippedNonBlank(pieces: seq<string>): (r: seq<string>)
    requires forall i :: 0 <= i < |pieces| ==> ';' !in pieces[i]
    ensures |r| <= |pieces|
    ensures forall i :: 0 <= i < |r| ==> IsEntry(r[i])
  {
    if pieces == [] then []
    else
      var p := Strip(pieces[0]);
      assert ';' !in p;
      var rest := StrippedNonBlank(pieces[1..]);
      if p != [] then [p] + rest else rest
  }

  /** `[p.strip() for p in s.split(';') if p.strip()]`: the entries of a
      semicolon-separated cell, stripped, blanks dropped, order kept. */
  function Entries(s: string): (r: seq<string>)
    ensures forall i :: 0 <= i < |r| ==> IsEntry(r[i])
  {
    StrippedNonBlank(Split(s, ';'))
  }

  lemma {:induction false} StrippedNonBlankOfEntries(items: seq<string>)
    requires forall i :: 0 <= i < |items| ==> ';' !in items[i]
    requires forall i :: 0 <= i < |items| ==> IsEntry(items[i])
    ensures StrippedNonBlank(items) == items
  {
    if items != [] {
      StripStripped(items[0]);
      StrippedNonBlankOfEntries(items[1..]);
      assert [items[0]] + items[1..] == items;
    }
  }

  /** The filter works piece by piece: filtering two runs of pieces is
      filtering each run and concatenating, in order. */
  lemma {:induction false} StrippedNonBlankAppend(a: seq<string>, b: seq<string>)
    requires forall i :: 0 <= i < |a| ==> ';' !in a[i]
    requires forall i :: 0 <= i < |b| ==> ';' !in b[i]
    ensures StrippedNonBlank(a + b) == StrippedNonBlank(a) + StrippedNonBlank(b)
  {
    if a == [] {
      assert a + b == b;
    } else {
      var ab := a + b;
      assert ab[0] == a[0];
      assert ab[1..] == a[1..] + b;
      StrippedNonBlankAppend(a[1..], b);
      var x, y := StrippedNonBlank(a[1..]), StrippedNonBlank(b);
      assert StrippedNonBlank(ab[1..]) == x + y;
      var p := Strip(a[0]);
      if p != [] {
        assert [p] + (x + y) == ([p] + x) + y;
      }
    }
  }

  /** A single piece: a blank piece is dropped, any other is kept stripped. */
  lemma StrippedNonBlankSingle(p: string)
    requires ';' !in p
    ensures StrippedNonBlank([p]) == if AllSpace(p) then [] else [Strip(p)]
  {
    assert [p][1..] == [];
  }

  /** Parsing a list that was written as entries joined by `;` gives the entries back. */
  lemma EntriesJoin(items: seq<string>)
    requires items != []
    requires forall i :: 0 <= i < |items| ==> IsEntry(items[i])
    ensures Entries(Join(items, ';')) == items
  {
    SplitJoin(items, ';');
    StrippedNonBlankOfEntries(items);
  }

  /** Only semicolons and white space. */
  predicate SeparatorsOnly(s: string) {
    forall i :: 0 <= i < |s| ==> s[i] == ';' || IsSpace(s[i])
  }

  lemma {:induction false} SplitSeparatorsOnly(s: string)
    requires SeparatorsOnly(s)
    ensures forall i :: 0 <= i < |Split(s, ';')| ==> AllSpace(Split(s, ';')[i])
    decreases |s|
  {
    if s != [] {
      SplitSeparatorsOnly(s[1..]);
    }
  }

  lemma {:induction false} StrippedNonBlankOfBlanks(pieces: seq<string>)
    requires forall i :: 0 <= i < |pieces| ==> ';' !in pieces[i] && AllSpace(pieces[i])
    ensures StrippedNonBlank(pieces) == []
  {
    if pieces != [] {
      StrippedNonBlankOfBlanks(pieces[1..]);
    }
  }

  /** A cell of only semicolons and white space has no entries. */
  lemma EntriesOfSeparators(s: string)
    requires SeparatorsOnly(s)
    ensures Entries(s) == []
  {
    SplitSeparatorsOnly(s);
    StrippedNonBlankOfBlanks(Split(s, ';'));
  }

  // ---------------------------------------------------------------------
  // Locations

  /** The location list: column `locations`, else column `location_id`,
      else the one default location; a chosen column may give no entries. */
  function Locations(row: Row): (r: seq<string>)
    ensures forall i :: 0 <= i < |r| ==> IsEntry(r[i])
  {
    if Truthy(row, "locations") then Entries(row["locations"])
    else if Truthy(row, "location_id") then Entries(row["location_id"])
    else [DefaultLocation]
  }

  /** Which column supplies the locations, and what it gives. */
  lemma LocationsRules(row: Row, items: seq<string>)
    requires items != [] && forall i :: 0 <= i < |items| ==> IsEntry(items[i])
    ensures "locations" in row && row["locations"] == Join(items, ';') ==> Locations(row) == items
    ensures !Truthy(row, "locations") && "location_id" in row && row["location_id"] == Join(items, ';') ==>
              Locations(row) == items
    ensures !Truthy(row, "locations") && !Truthy(row, "location_id") ==> Locations(row) == [DefaultLocation]
  {
    EntriesJoin(items);
    assert Join(items, ';') != [] by {
      if |items| == 1 { assert Join(items, ';') == items[0]; }
      else { assert Join(items, ';')[|items[0]|] == ';'; }
    }
  }

  /** Which column supplies the locations, for any cells: a non-empty
      `locations` cell alone decides them, whatever `location_id` or any
      other column holds;
      otherwise a non-empty `location_id` cell does; otherwise the default. */
  lemma LocationsColumnChoice(row: Row)
    ensures Truthy(row, "locations") ==>
      && Locations(row) == Entries(row["locations"])
      && forall other: Row :: "locations" in other && other["locations"] == row["locations"] ==>
           Locations(other) == Locations(row)
    ensures !Truthy(row, "locations") && Truthy(row, "location_id") ==>
      Locations(row) == Entries(row["location_id"])
    ensures !Truthy(row, "locations") && !Truthy(row, "location_id") ==>
      Locations(row) == [DefaultLocation]
  {
  }

  /** A non-empty `locations` cell of separators and blanks yields no
      locations at all: neither `location_id` nor the default is used. */
  lemma LocationsNoFallback(row: Row)
    requires Truthy(row, "locations") && SeparatorsOnly(row["locations"])
    ensures Locations(row) == []
  {
    EntriesOfSeparators(row["locations"]);
  }

  // ---------------------------------------------------------------------
  // Tags

  /** The four fixed-purpose tags as (tag key, column) pairs, in order. */
  const RequiredTagColumns: seq<(string, string)> := [
    ("Purpose", "tag_purpose"),
    ("Industry", "tag_industry"),
    ("Owner", "tag_owner"),
    ("ExpiryDate", "tag_expiry_date")
  ]

  /** Position of a fixed-purpose tag key in `RequiredTagColumns`. */
  function KeyRank(key: string): nat {
    if key == "Purpose" then 0
    else if key == "Industry" then 1
    else if key == "Owner" then 2
    else if key == "ExpiryDate" then 3
    else 4
  }

  lemma KeyRankOfColumn(i: nat)
    requires i < |RequiredTagColumns|
    ensures KeyRank(RequiredTagColumns[i].0) == i
  {
    assert "Industry"[0] != "Purpose"[0];
    assert "Owner"[0] != "Purpose"[0] && "Owner"[0] != "Industry"[0];
    assert "ExpiryDate"[0] != "Purpose"[0] && "ExpiryDate"[0] != "Industry"[0] && "ExpiryDate"[0] != "Owner"[0];
  }

  /** The tag the i-th fixed-purpose column contributes, if any. */
  function RequiredTag(row: Row, i: nat): seq<Tag>
    requires i < |RequiredTagColumns|
  {
    var (key, col) := RequiredTagColumns[i];
    if NonBlank(row, col) then [Tag(Contextless, key, Some(Strip(row[col])))] else []
  }

  /** The tags of the first n fixed-purpose columns. */
  function RequiredTagsUpTo(row: Row, n: nat): seq<Tag>
    requires n <= |RequiredTagColumns|
  {
    if n == 0 then [] else RequiredTagsUpTo(row, n - 1) + RequiredTag(row, n - 1)
  }

  function RequiredTags(row: Row): seq<Tag> {
    RequiredTagsUpTo(row, |RequiredTagColumns|)
  }

  /** The tag one custom entry gives: split at the first colon into a
      stripped key and stripped value, or a key alone. */
  function CustomTag(entry: string): Tag {
    if ':' in entry then
      var kv := SplitOnce(entry, ':');
      Tag(Contextless, Strip(kv.0), Some(Strip(kv.1)))
    else Tag(Contextless, Strip(entry), None)
  }

  /** The entries of `tag_custom`, or none when it is absent or blank. */
  function CustomEntries(row: Row): seq<string> {
    if NonBlank(row, "tag_custom") then Entries(row["tag_custom"]) else []
  }

  /** `f` applied to each entry, in entry order. */
  function MapEntries(f: string -> Tag, entries: seq<string>): seq<Tag> {
    if entries == [] then []
    else MapEntries(f, entries[..|entries| - 1]) + [f(entries[|entries| - 1])]
  }

  /** One tag per entry, and the k-th tag is `f` of the k-th entry. */
  lemma {:induction false} MapEntriesInOrder(f: string -> Tag, entries: seq<string>)
    ensures |MapEntries(f, entries)| == |entries|
    ensures forall k :: 0 <= k < |entries| ==> MapEntries(f, entries)[k] == f(entries[k])
  {
    if entries != [] {
      MapEntriesInOrder(f, entries[..|entries| - 1]);
    }
  }

  /** One custom tag per entry. */
  function CustomTagsOf(entries: seq<string>): seq<Tag> {
    MapEntries(CustomTag, entries)
  }

  function CustomTags(row: Row): seq<Tag> {
    CustomTagsOf(CustomEntries(row))
  }

  /** The custom tier holds exactly one tag per entry, in entry order. */
  lemma CustomTagsInOrder(entries: seq<string>)
    ensures |CustomTagsOf(entries)| == |entries|
    ensures forall k :: 0 <= k < |entries| ==> CustomTagsOf(entries)[k] == CustomTag(entries[k])
  {
    MapEntriesInOrder(CustomTag, entries);
  }

  /** The tag list: fixed-purpose tags, then custom tags, and the
      sentinel tag alone when those two tiers gave nothing. */
  function Tags(row: Row): seq<Tag> {
    var t := RequiredTags(row) + CustomTags(row);
    if t == [] then [SentinelTag] else t
  }

  /** Every fixed-purpose tag is the stripped value of a non-blank
      fixed-purpose column, filed under that column's key. */
  lemma {:induction false} RequiredTagsSound(row: Row, n: nat)
    requires n <= |RequiredTagColumns|
    ensures |RequiredTagsUpTo(row, n)| <= n
    ensures forall t :: t in RequiredTagsUpTo(row, n) ==>
      && KeyRank(t.key) < n
      && NonBlank(row, RequiredTagColumns[KeyRank(t.key)].1)
      && t == Tag(Contextless, RequiredTagColumns[KeyRank(t.key)].0,
                  Some(Strip(row[RequiredTagColumns[KeyRank(t.key)].1])))
  {
    if n > 0 {
      RequiredTagsSound(row, n - 1);
      KeyRankOfColumn(n - 1);
    }
  }

  /** The fixed-purpose tags come in the order Purpose, Industry, Owner, ExpiryDate. */
  lemma {:induction false} RequiredTagsOrdered(row: Row, n: nat)
    requires n <= |RequiredTagColumns|
    ensures var r := RequiredTagsUpTo(row, n);
      forall j, k :: 0 <= j < k < |r| ==> KeyRank(r[j].key) < KeyRank(r[k].key)
  {
    if n > 0 {
      RequiredTagsOrdered(row, n - 1);
      RequiredTagsSound(row, n - 1);
      KeyRankOfColumn(n - 1);
      var p := RequiredTagsUpTo(row, n - 1);
      var r := RequiredTagsUpTo(row, n);
      forall j, k | 0 <= j < k < |r| ensures KeyRank(r[j].key) < KeyRank(r[k].key) {
        assert r[j] == p[j] && r[j] in p;
        if k == |p| {
          assert r[k] == Tag(Contextless, RequiredTagColumns[n - 1].0, Some(Strip(row[RequiredTagColumns[n - 1].1])));
        } else {
          assert r[k] == p[k];
        }
      }
    }
  }

  /** Every non-blank fixed-purpose column gives a tag. */
  lemma {:induction false} RequiredTagsComplete(row: Row, n: nat)
    requires n <= |RequiredTagColumns|
    ensures forall i :: 0 <= i < n && NonBlank(row, RequiredTagColumns[i].1) ==>
      Tag(Contextless, RequiredTagColumns[i].0, Some(Strip(row[RequiredTagColumns[i].1]))) in RequiredTagsUpTo(row, n)
  {
    if n > 0 {
      RequiredTagsComplete(row, n - 1);
    }
  }

  /** No non-blank fixed-purpose column, no fixed-purpose tag. */
  lemma {:induction false} RequiredTagsAbsent(row: Row, n: nat)
    requires n <= |RequiredTagColumns|
    requires forall i :: 0 <= i < n ==> !NonBlank(row, RequiredTagColumns[i].1)
    ensures RequiredTagsUpTo(row, n) == []
  {
    if n > 0 {
      RequiredTagsAbsent(row, n - 1);
    }
  }

  /** A custom entry `key:value` gives that key and value, stripped, even
      when the value holds further colons; an entry without a colon gives
      a key with no value. */
  lemma CustomTagOf(key: string, value: string)
    requires ':' !in key
    ensures CustomTag(key + ":" + value) == Tag(Contextless, Strip(key), Some(Strip(value)))
    ensures IsEntry(key) ==> CustomTag(key) == Tag(Contextless, key, None)
  {
    SplitOnceOf(key, ':', value);
    assert ':' in key + ":" + value by { assert (key + ":" + value)[|key|] == ':'; }
    if IsEntry(key) { StripStripped(key); }
  }

  /** The tag list is never empty; when either tier gives a tag the
      sentinel is not added, and when neither does it is the only tag. */
  lemma TagsNeverEmpty(row: Row)
    ensures |Tags(row)| >= 1
    ensures Tags(row)[..|RequiredTags(row)|] == RequiredTags(row) || Tags(row) == [SentinelTag]
    ensures RequiredTags(row) != [] || CustomEntries(row) != [] ==> Tags(row) == RequiredTags(row) + CustomTags(row)
    ensures RequiredTags(row) == [] && CustomEntries(row) == [] ==> Tags(row) == [SentinelTag]
  {
  }

  /** With no fixed-purpose column and no custom entry filled in, the
      sentinel tag is the whole tag list. */
  lemma SentinelWhenNoTagColumns(row: Row)
    requires forall i :: 0 <= i < |RequiredTagColumns| ==> !NonBlank(row, RequiredTagColumns[i].1)
    requires !NonBlank(row, "tag_custom")
    ensures Tags(row) == [SentinelTag]
  {
    RequiredTagsAbsent(row, |RequiredTagColumns|);
    assert CustomTags(row) == [];
  }

  // ---------------------------------------------------------------------
  // Scalar fields

  /** `row.get('enabled', 'true').lower() == 'true'`. */
  function Enabled(row: Row): bool {
    Lower(Get(row, "enabled", DefaultEnabled)) == "true"
  }

  /** Enabled exactly when the column is absent or reads "true" in any
      letter case; the cell is not trimmed. */
  lemma EnabledIff(row: Row)
    ensures Enabled(row) <==> "enabled" !in row || EqualsIgnoringCase(row["enabled"], "true")
  {
    LowerMatches(Get(row, "enabled", DefaultEnabled), "true");
    if "enabled" !in row {
      assert EqualsIgnoringCase(DefaultEnabled, "true") by {
        forall i | 0 <= i < 4 ensures SameIgnoringCase(DefaultEnabled[i], "true"[i]) {}
      }
    }
  }

  /** The frequency and whether the invalid-frequency warning is given:
      60 for an absent or empty cell, the parsed integer when `int()`
      accepts the cell, else 60 with the warning. */
  function Frequency(row: Row): (r: (int, bool))
    ensures r.1 ==> r.0 == DefaultFrequency
    ensures r.1 ==> Truthy(row, "frequencyMin")
  {
    if Truthy(row, "frequencyMin") then
      match ParseInt(row["frequencyMin"])
      case Some(n) => (n, false)
      case None => (DefaultFrequency, true)
    else (DefaultFrequency, false)
  }

  /** Any integer written in decimal within `int()`'s digit limit, padded
      or not with the white space `int()` skips, is taken as it is: there
      is no range check, so zero and negative values pass. */
  lemma FrequencyOfNumber(row: Row, pre: string, n: int, post: string)
    requires AllIntSpace(pre) && AllIntSpace(post)
    requires |ShowNat(if n < 0 then -n else n)| <= MaxStrDigits
    requires "frequencyMin" in row && row["frequencyMin"] == pre + ShowInt(n) + post
    ensures Frequency(row) == (n, false)
  {
    var s := ShowInt(n);
    ShowIntStripped(n);
    IntTrimPadded(pre, s, post);
    IntTrimmed(s);
    ParseShowInt(n);
    assert ParseInt(pre + s + post) == ParseSignedDigits(s) == ParseInt(s);
  }

  /** Any cell `int()` accepts, with a sign, leading zeros or skipped
      white space, is taken at its value without a warning. */
  lemma FrequencyOfDigits(row: Row, pre: string, sign: string, d: string, post: string)
    requires AllIntSpace(pre) && AllIntSpace(post) && IsSign(sign)
    requires d != [] && AllDigits(d) && |d| <= MaxStrDigits
    requires "frequencyMin" in row && row["frequencyMin"] == pre + sign + d + post
    ensures Frequency(row) == (Signed(sign, DigitsValue(d)), false)
  {
    ParseIntAccepts(pre, sign, d, post);
  }

  /** " +007" with a trailing newline: 7, with no warning. */
  lemma FrequencyExampleSignAndZeros()
    ensures Frequency(map["frequencyMin" := " +007\n"]) == (7, false)
  {
    var d := "007";
    assert DigitsValue(d) == 7 by {
      assert d[..2] == "00" && "00"[..1] == "0" && "0"[..0] == [];
    }
    FrequencyOfDigits(map["frequencyMin" := " +007\n"], " ", "+", d, "\n");
  }

  /** More digits than `int()` converts: 60 with a warning. */
  lemma FrequencyTooManyDigits(row: Row)
    requires "frequencyMin" in row && AllDigits(row["frequencyMin"])
    requires |row["frequencyMin"]| > MaxStrDigits
    ensures Frequency(row) == (DefaultFrequency, true)
  {
    ParseIntTooManyDigits(row["frequencyMin"]);
  }

  /** A number behind the separator U+001C, which `strip()` removes but
      `int()` does not skip: 60 with a warning. */
  lemma FrequencyExampleSeparatorPadding()
    ensures Frequency(map["frequencyMin" := "\U{1C}45"]) == (60, true)
  {
    ParseIntSeparatorPadding();
  }

  /** An absent or empty cell gives 60 without a warning; one that is not
      a number gives 60 with a warning. */
  lemma FrequencyDefaults(row: Row)
    ensures !Truthy(row, "frequencyMin") ==> Frequency(row) == (DefaultFrequency, false)
    ensures Truthy(row, "frequencyMin") && ParseInt(row["frequencyMin"]) == None ==> Frequency(row) == (DefaultFrequency, true)
  {
  }

  /** The description: the `description` cell, or "Navigate to " and the target url. */
  function Description(row: Row): string {
    Get(row, "description", "Navigate to " + Get(row, "target_url", DefaultUrl))
  }

  // ---------------------------------------------------------------------
  // The document

  /** The document the converter builds for `row`. */
  function MonitorFor(row: Row): MonitorDoc {
    var url := Get(row, "target_url", DefaultUrl);
    MonitorDoc(
      FixedAnomalyDetection, [], Enabled(row), [], Frequency(row).0,
      FixedKeyPerformanceMetrics, Locations(row), [], [],
      Get(row, "monitor_name", DefaultName),
      Script(FixedScriptConfiguration,
             [ScriptEvent(Description(row), "navigate", url, "page_complete")],
             Get(row, "script_type", DefaultScriptType), "1.0"),
      Tags(row), "BROWSER")
  }

  /** The name, url, script type and description are the row's cells
      whenever the columns exist, empty cells included; the fixed defaults
      are used only for absent columns. */
  lemma DefaultsOnlyWhenAbsent(row: Row)
    ensures var d := MonitorFor(row);
      && d.name == (if "monitor_name" in row then row["monitor_name"] else DefaultName)
      && d.script.events[0].url == (if "target_url" in row then row["target_url"] else DefaultUrl)
      && d.script.scriptType == (if "script_type" in row then row["script_type"] else DefaultScriptType)
      && d.script.events[0].description ==
           (if "description" in row then row["description"] else "Navigate to " + d.script.events[0].url)
  {
  }

  /** Every document has one script step: navigate to the row's url,
      described by the row's description, waiting for the page. */
  lemma OneNavigateEvent(row: Row)
    ensures |MonitorFor(row).script.events| == 1
    ensures MonitorFor(row).script.events[0] ==
      ScriptEvent(Description(row), "navigate", Get(row, "target_url", DefaultUrl), "page_complete")
  {
  }

  /** Everything but name, enabled, frequency, locations, tags, script
      type, url and description is the same for every row: the constants
      of the document literal. */
  lemma FixedShape(row1: Row, row2: Row)
    ensures var d1, d2 := MonitorFor(row1), MonitorFor(row2);
      && d1.anomalyDetection == d2.anomalyDetection == FixedAnomalyDetection
      && d1.keyPerformanceMetrics == d2.keyPerformanceMetrics == FixedKeyPerformanceMetrics
      && d1.script.configuration == d2.script.configuration == FixedScriptConfiguration
      && d1.automaticallyAssignedApps == d2.automaticallyAssignedApps == []
      && d1.events == d2.events == []
      && d1.managementZones == d2.managementZones == []
      && d1.manuallyAssignedApps == d2.manuallyAssignedApps == []
      && d1.script.version == d2.script.version == "1.0"
      && d1.monitorType == d2.monitorType == "BROWSER"
  {
  }

  /** One more column extends the fixed-purpose tags by that column's tag, if any. */
  lemma RequiredTagsStep(row: Row, i: nat, key: string, col: string)
    requires i < |RequiredTagColumns| && RequiredTagColumns[i] == (key, col)
    ensures RequiredTagsUpTo(row, i + 1)
         == RequiredTagsUpTo(row, i) + (if NonBlank(row, col) then [Tag(Contextless, key, Some(Strip(row[col])))] else [])
  {
  }

  /** The fixed-purpose loop: one tag per non-blank fixed-purpose column, in order. */
  method CollectRequiredTags(row: Row) returns (tags: seq<Tag>)
    ensures tags == RequiredTags(row)
  {
    tags := [];
    var i := 0;
    while i < |RequiredTagColumns|
      invariant 0 <= i <= |RequiredTagColumns|
      invariant tags == RequiredTagsUpTo(row, i)
    {
      var (key, col) := RequiredTagColumns[i];
      RequiredTagsStep(row, i, key, col);
      if col in row && !AllSpace(row[col]) {
        tags := tags + [Tag(Contextless, key, Some(Strip(row[col])))];
      }
      i := i + 1;
    }
  }

  lemma ExampleEntries(cell: string)
    requires cell == "env:prod;urgent"
    ensures Entries(cell) == ["env:prod", "urgent"]
  {
    var items := ["env:prod", "urgent"];
    assert Join(items, ';') == "env:prod;urgent";
    EntriesJoin(items);
  }

  lemma ExampleKeyValueTag()
    ensures CustomTag("env:prod") == Tag(Contextless, "env", Some("prod"))
  {
    assert "env" + ":" + "prod" == "env:prod";
    StripStripped("env");
    StripStripped("prod");
    CustomTagOf("env", "prod");
  }

  lemma ExampleKeyOnlyTag()
    ensures CustomTag("urgent") == Tag(Contextless, "urgent", None)
  {
    assert ':' !in "urgent";
    StripStripped("urgent");
  }

  /** `tag_custom` = "env:prod;urgent" gives the tags env=prod and urgent (no value). */
  lemma CustomTagsExample(row: Row)
    requires "tag_custom" in row && row["tag_custom"] == "env:prod;urgent"
    ensures CustomTags(row) == [Tag(Contextless, "env", Some("prod")), Tag(Contextless, "urgent", None)]
  {
    var items := ["env:prod", "urgent"];
    ExampleEntries(row["tag_custom"]);
    assert CustomEntries(row) == items;
    ExampleKeyValueTag();
    ExampleKeyOnlyTag();
    CustomTagsInOrder(items);
  }

  /** "TRUE", "True" and "true" enable the monitor; an empty cell and a
      padded " true" do not. */
  lemma EnabledExamples()
    ensures Enabled(map["enabled" := "TRUE"]) && Enabled(map["enabled" := "True"]) && Enabled(map["enabled" := "true"])
    ensures !Enabled(map["enabled" := ""]) && !Enabled(map["enabled" := " true"])
  {
    EnabledIff(map["enabled" := "TRUE"]);
    EnabledIff(map["enabled" := "True"]);
    EnabledIff(map["enabled" := "true"]);
    EnabledIff(map["enabled" := ""]);
    EnabledIff(map["enabled" := " true"]);
    assert !SameIgnoringCase(" true"[0], "true"[0]);
  }

  /** "45" gives 45. */
  lemma FrequencyExampleNumber()
    ensures Frequency(map["frequencyMin" := "45"]) == (45, false)
  {
    assert ShowNat(4) == "4";
    assert ShowInt(45) == "45";
    FrequencyOfNumber(map["frequencyMin" := "45"], "", 45, "");
  }

  /** "0" and "-5" pass through: there is no range check. */
  lemma FrequencyExampleNoRangeCheck()
    ensures Frequency(map["frequencyMin" := "0"]) == (0, false)
    ensures Frequency(map["frequencyMin" := "-5"]) == (-5, false)
  {
    assert ShowInt(0) == "0";
    FrequencyOfNumber(map["frequencyMin" := "0"], "", 0, "");
    assert ShowInt(-5) == "-5";
    FrequencyOfNumber(map["frequencyMin" := "-5"], "", -5, "");
  }

  /** "abc" is not a number: 60 with a warning. */
  lemma FrequencyExampleInvalid()
    ensures Frequency(map["frequencyMin" := "abc"]) == (60, true)
  {
    assert !IsIntSpace("abc"[0]) && !IsIntSpace("abc"[2]);
    IntTrimmed("abc");
    assert !IsDigit("abc"[0]);
  }

  /** The body of the custom loop: an entry `key:value`, split at its
      first colon, gives the stripped key and the stripped value; an entry
      without a colon gives the stripped entry as a key with no value. */
  method ParseCustomTag(pair: string) returns (tag: Tag)
    ensures ':' !in pair ==> tag == Tag(Contextless, Strip(pair), None)
    ensures forall key, value :: ':' !in key && pair == key + ":" + value ==>
              tag == Tag(Contextless, Strip(key), Some(Strip(value)))
    ensures tag == CustomTag(pair)
  {
    forall key, value | ':' !in key && pair == key + ":" + value
      ensures ':' in pair && SplitOnce(pair, ':') == (key, value)
    {
      SplitOnceOf(key, ':', value);
      assert pair[|key|] == ':';
    }
    if ':' in pair {
      var kv := SplitOnce(pair, ':');
      tag := Tag(Contextless, Strip(kv.0), Some(Strip(kv.1)));
    } else {
      tag := Tag(Contextless, Strip(pair), None);
    }
  }

  /** The custom loop: appends one tag per entry, in entry order. */
  method AppendEntryTags(required: seq<Tag>, pairs: seq<string>) returns (tags: seq<Tag>)
    ensures tags == required + CustomTagsOf(pairs)
  {
    tags := required;
    var k := 0;
    while k < |pairs|
      invariant 0 <= k <= |pairs|
      invariant tags == required + CustomTagsOf(pairs[..k])
    {
      assert pairs[..k + 1][..k] == pairs[..k];
      var tag := ParseCustomTag(pairs[k]);
      tags := tags + [tag];
      k := k + 1;
    }
    assert pairs[..k] == pairs;
  }

  /** The custom tier: entries of a non-blank `tag_custom` cell, then the loop. */
  method AppendCustomTags(row: Row, required: seq<Tag>) returns (tags: seq<Tag>)
    ensures tags == required + CustomTags(row)
  {
    tags := required;
    if "tag_custom" in row && !AllSpace(row["tag_custom"]) {
      var pairs := Entries(row["tag_custom"]);
      tags := AppendEntryTags(required, pairs);
    }
  }

  /** `create_monitor_json_content`: builds the tag list in its two loops
      and the sentinel step, coerces `enabled` and `frequencyMin`, fills in
      the defaults and assembles the document; also reports whether the
      invalid-frequency warning would be printed. */
  method CreateMonitorJsonContent(row: Row) returns (doc: MonitorDoc, frequencyWarning: bool)
    ensures doc == MonitorFor(row)
    ensures frequencyWarning == Frequency(row).1
    ensures |doc.tags| >= 1
  {
    var locations := Locations(row);

    var tags := CollectRequiredTags(row);
    tags := AppendCustomTags(row, tags);
    if tags == [] {
      tags := tags + [SentinelTag];
    }
    assert tags == Tags(row);

    var enabled := Lower(Get(row, "enabled", DefaultEnabled)) == "true";

    var frequency := DefaultFrequency;
    frequencyWarning := false;
    if "frequencyMin" in row && row["frequencyMin"] != "" {
      var parsed := ParseInt(row["frequencyMin"]);
      if parsed.Some? {
        frequency := parsed.value;
      } else {
        frequencyWarning := true;
        frequency := DefaultFrequency;
      }
    }

    assert frequency == Frequency(row).0;

    var name := Get(row, "monitor_name", DefaultName);
    var url := Get(row, "target_url", DefaultUrl);
    var scriptType := Get(row, "script_type", DefaultScriptType);
    var description := Get(row, "description", "Navigate to " + url);

    doc := MonitorDoc(
      FixedAnomalyDetection, [], enabled, [], frequency,
      FixedKeyPerformanceMetrics, locations, [], [], name,
      Script(FixedScriptConfiguration,
             [ScriptEvent(description, "navigate", url, "page_complete")],
             scriptType, "1.0"),
      tags, "BROWSER");
  }
}
