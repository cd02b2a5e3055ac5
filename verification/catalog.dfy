/**
 * The static attribute catalog of adas.py: three dictionaries keyed by the
 * same fifteen keys, in the same order (events_initial, events_menu,
 * events_schema). Python dictionaries keep insertion order, so each one is
 * modelled as a sequence parallel to Keys: position i of every sequence
 * belongs to the i-th key, and the i-th checkbox is built from the i-th menu
 * label.
 */
module Catalog {
  import opened Wrappers

  const Keys: seq<string> :=
    ["lname", "ldate", "lvn", "ldil", "lsng", "llc", "lvehl", "lvlhl",
     "llm", "lvrihl", "lvror", "laor", "loihl", "loor", "lvss"]

  /** events_initial: the help text shown in the query sub-dialog. */
  const HelpTexts: seq<string> :=
    ["Search using ADAS decoded log file (.mat)",
     "Search using upload date following format YYYY-MM-DD, e.g. 2017-05-30, etc",
     "Search using vehicle registration number, e.g. JPP297, AES256, etc",
     "Search using percentage of how centered the car (within detected lane markers) during the log",
     "Search using number of host standing (stopping) and go",
     "Search using number of host changing lane",
     "Search using count of vehicle entering host lane",
     "Search using count of vehicle leaving host lane",
     "Search using count of merged lane",
     "Search using numbers of VRU in host lane",
     "Search using numbers of VRU on the road",
     "Search using numbers of animals on the road",
     "Search using count of obstacle in the host lane",
     "Search using count of obstacle on the road",
     "Search using count of stand still vehicle"]

  /** events_menu: the menu-action and checkbox labels (with Qt's '&' mnemonic). */
  const MenuLabels: seq<string> :=
    ["&Log Name", "&Upload Date", "&Vehicle Number", "&Drive in Lane",
     "&Stop and Go", "&Lane Change", "&Vehicle Entering Host Lane",
     "&Vehicle Leaving Host Lane", "&Lane Merge", "&VRU in Host Lane",
     "&VRU on Road", "&Animal on Road", "&Obstacle in Host Lane",
     "&Obstacle on Road", "&Vehicle Standstill"]

  /** events_schema: the column of table adas_events each key queries. */
  const SchemaNames: seq<string> :=
    ["log_name", "upload_date", "vehicle", "drive_in_lane", "stop_and_go",
     "lane_change", "veh_enters_host_lane", "veh_leaves_host_lane",
     "lane_merge", "vru_in_host_lane", "vru_on_road", "animal_on_road",
     "obstacle_in_host_lane", "obstacle_on_road", "vehicle_standstill"]

  predicate Distinct(s: seq<string>)
  {
    forall i, j | 0 <= i < j < |s| :: s[i] != s[j]
  }

  /** The four sequences are parallel and each is free of repetitions. */
  lemma CatalogWellFormed()
    ensures |Keys| == |HelpTexts| == |MenuLabels| == |SchemaNames| == 15
    ensures Distinct(Keys) && Distinct(MenuLabels) && Distinct(SchemaNames)
    ensures "" !in Keys
  {
  }

  /** The first position of x in s, as a dictionary lookup by key sees it. */
  function IndexOf(s: seq<string>, x: string): (r: Option<nat>)
    ensures r.Some? <==> x in s
    ensures r.Some? ==> r.value < |s| && s[r.value] == x
  {
    if |s| == 0 then None
    else if s[0] == x then Some(0)
    else match IndexOf(s[1..], x)
      case None => None
      case Some(k) => Some(k + 1)
  }

  /** The position of a known key: the index of its checkbox. */
  function KeyIndex(key: string): (i: nat)
    requires key in Keys
    ensures i < |Keys| && Keys[i] == key
  {
    IndexOf(Keys, key).value
  }

  /** events_schema[key]. */
  function SchemaOf(key: string): (column: string)
    requires key in Keys
    ensures column in SchemaNames
  {
    CatalogWellFormed();
    SchemaNames[KeyIndex(key)]
  }

  /** Every key sits at exactly one position, and its column is the column at that position. */
  lemma KeyIndexOfPosition(i: nat)
    requires i < |Keys|
    ensures KeyIndex(Keys[i]) == i
    ensures SchemaOf(Keys[i]) == SchemaNames[i]
  {
    CatalogWellFormed();
  }

  /** A key's column sits at position j exactly when the key does. */
  lemma SchemaOfPosition(key: string, j: nat)
    requires key in Keys && j < |SchemaNames|
    ensures SchemaOf(key) == SchemaNames[j] <==> Keys[j] == key
  {
    CatalogWellFormed();
    KeyIndexOfPosition(j);
  }

  /**
   * The loop that maps a menu or checkbox label back to its key
   * (`for k, v in events_menu.items(): if text == v: ...; break`),
   * yielding '' for a label that is not in the menu.
   */
  method LookupKey(text: string) returns (key: string)
    ensures key == "" <==> text !in MenuLabels
    ensures forall i | 0 <= i < |MenuLabels| && MenuLabels[i] == text :: key == Keys[i]
  {
    CatalogWellFormed();
    key := "";
    var i := 0;
    while i < |MenuLabels|
      invariant 0 <= i <= |MenuLabels|
      invariant forall j | 0 <= j < i :: MenuLabels[j] != text
      invariant key == ""
    {
      if MenuLabels[i] == text {
        key := Keys[i];
        assert forall j | 0 <= j < |MenuLabels| && MenuLabels[j] == text :: j == i;
        return;
      }
      i := i + 1;
    }
  }

  /**
   * The key lookup followed by `events_schema[key]`: the column a menu or
   * checkbox label stands for.
   */
  method SchemaForLabel(text: string) returns (schema: string)
    requires text in MenuLabels
    ensures forall i | 0 <= i < |MenuLabels| && MenuLabels[i] == text :: schema == SchemaNames[i]
  {
    var key := LookupKey(text);
    CatalogWellFormed();
    forall i | 0 <= i < |MenuLabels| && MenuLabels[i] == text ensures SchemaOf(key) == SchemaNames[i] {
      KeyIndexOfPosition(i);
    }
    schema := SchemaOf(key);
  }
}
