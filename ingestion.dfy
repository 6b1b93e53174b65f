/**
 * `loadRemoteFileDataSuccess`: turn a fetched remote file, its options and an
 * optional saved configuration into a dataset merged into the `map`
 * kepler.gl instance, and turn off the loading spinner.
 */
module Ingestion {
  import opened Wrappers
  import opened Externals
  import opened Actions
  import opened Environment
  import opened AppSlice
  import opened DemoStore

  /** `sub` occurs in `s` starting at position `i`. */
  ghost predicate MatchesAt(sub: string, s: string, i: nat) {
    i + |sub| <= |s| && s[i..i + |sub|] == sub
  }

  /** `sub` occurs in `s` at some position. */
  ghost predicate OccursIn(sub: string, s: string) {
    exists i: nat :: MatchesAt(sub, s, i)
  }

  /**
   * When `sub` does not start `s`, it occurs in `s` exactly when it occurs in
   * `s` without its first character.
   */
  lemma OccursInTail(s: string, sub: string)
    requires |sub| <= |s| && s[..|sub|] != sub
    ensures |s| > 0
    ensures OccursIn(sub, s) <==> OccursIn(sub, s[1..])
  {
    if OccursIn(sub, s) {
      var i: nat :| MatchesAt(sub, s, i);
      assert i != 0;
      assert s[1..][i - 1..i - 1 + |sub|] == s[i..i + |sub|];
      assert MatchesAt(sub, s[1..], i - 1);
    }
    if OccursIn(sub, s[1..]) {
      var i: nat :| MatchesAt(sub, s[1..], i);
      assert s[1..][i..i + |sub|] == s[i + 1..i + 1 + |sub|];
      assert MatchesAt(sub, s, i + 1);
    }
  }

  /** `s.includes(sub)`, scanning from the left: true exactly when `sub` occurs in `s`. */
  function Includes(s: string, sub: string): (b: bool)
    ensures b <==> OccursIn(sub, s)
    decreases |s|
  {
    if |s| < |sub| then false
    else if s[..|sub|] == sub then
      assert MatchesAt(sub, s, 0);
      true
    else
      OccursInTail(s, sub);
      Includes(s[1..], sub)
  }

  datatype Processor = CsvProcessor | GeojsonProcessor

  /**
   * The extension sniff on `dataUrl`: the GeoJSON processor exactly when the
   * URL contains ".json" or ".geojson", the CSV processor otherwise.
   */
  function ChooseProcessor(dataUrl: string): (p: Processor)
    ensures p == GeojsonProcessor <==> OccursIn(".json", dataUrl) || OccursIn(".geojson", dataUrl)
    ensures p == CsvProcessor <==> !OccursIn(".json", dataUrl) && !OccursIn(".geojson", dataUrl)
  {
    if Includes(dataUrl, ".json") || Includes(dataUrl, ".geojson") then GeojsonProcessor else CsvProcessor
  }

  /**
   * `processorMethod(action.response)`: the GeoJSON processor's output when
   * the URL contains ".json" or ".geojson", the CSV processor's otherwise.
   */
  function Process(env: Env, dataUrl: string, response: Response): (data: ProcessedData)
    ensures OccursIn(".json", dataUrl) || OccursIn(".geojson", dataUrl) ==> data == env.processGeojson(response)
    ensures !OccursIn(".json", dataUrl) && !OccursIn(".geojson", dataUrl) ==> data == env.processCsvData(response)
  {
    match ChooseProcessor(dataUrl)
    case CsvProcessor => env.processCsvData(response)
    case GeojsonProcessor => env.processGeojson(response)
  }

  /** `action.options.id || generateHashId(6)`. */
  function DatasetId(env: Env, options: LoadOptions): (id: string)
    ensures Truthy(options.id) ==> id == options.id.value
    ensures !Truthy(options.id) ==> id == env.generatedId
  {
    if Truthy(options.id) then options.id.value else env.generatedId
  }

  /** The saved configuration, parsed when the action carries one, otherwise null. */
  function SavedConfig(env: Env, config: Option<RawConfig>): (c: Option<ParsedConfig>)
    ensures c.Some? <==> config.Some?
    ensures config.Some? ==> c.value == env.parseSavedConfig(config.value)
  {
    match config
    case None => None
    case Some(raw) => Some(env.parseSavedConfig(raw))
  }

  /** `state.keplerGl.map`, undefined when no such instance is mounted. */
  function MapInstanceOf(keplerGl: KeplerGlState): (m: Option<MapInstance>)
    ensures m.Some? <==> MapInstanceId in keplerGl
    ensures m.Some? ==> m.value == keplerGl[MapInstanceId]
  {
    if MapInstanceId in keplerGl then Some(keplerGl[MapInstanceId]) else None
  }

  /**
   * The payload handed to `addDataToMapComposed`: the dataset named by the
   * truthy `options.id` or else the generated id, holding the output of the
   * processor the URL selects, and the parsed saved configuration or null.
   */
  function IngestionPayload(env: Env, response: Response, options: LoadOptions, config: Option<RawConfig>): (p: AddDataPayload)
    ensures p.datasets.info.id == (if Truthy(options.id) then options.id.value else env.generatedId)
    ensures p.datasets.data ==
              (if OccursIn(".json", options.dataUrl) || OccursIn(".geojson", options.dataUrl)
               then env.processGeojson(response) else env.processCsvData(response))
    ensures p.config == (if config.Some? then Some(env.parseSavedConfig(config.value)) else None)
  {
    var datasets := Dataset(DatasetInfo(DatasetId(env, options)), Process(env, options.dataUrl, response));
    AddDataPayload(datasets, SavedConfig(env, config))
  }

  /**
   * `loadRemoteFileDataSuccess`: only the `map` instance of the kepler.gl
   * slice and the app's spinner flag change; the sharing slice is untouched.
   */
  function LoadRemoteFileDataSuccessUpdater(env: Env, s: DemoState, response: Response, options: LoadOptions,
                                            config: Option<RawConfig>): (r: DemoState)
    ensures r.keplerGl.Keys == s.keplerGl.Keys + {MapInstanceId}
    ensures r.keplerGl[MapInstanceId] ==
              env.addDataToMapComposed(MapInstanceOf(s.keplerGl), IngestionPayload(env, response, options, config))
    ensures forall id :: id in s.keplerGl && id != MapInstanceId ==> r.keplerGl[id] == s.keplerGl[id]
    ensures !r.app.isMapLoading
    ensures AppAgreeOutside(s.app, r.app, {IsMapLoadingField})
    ensures r.sharing == s.sharing
  {
    var payload := IngestionPayload(env, response, options, config);
    var instance := env.addDataToMapComposed(MapInstanceOf(s.keplerGl), payload);
    s.(app := s.app.(isMapLoading := false),
       keplerGl := s.keplerGl[MapInstanceId := instance])
  }

  /** The sniff on a few URLs: GeoJSON, plain JSON, and a CSV whose name contains ".json". */
  lemma GeojsonUrlExamples()
    ensures ChooseProcessor("foo.geojson") == GeojsonProcessor
    ensures ChooseProcessor("foo.json") == GeojsonProcessor
    ensures ChooseProcessor("data.json.csv") == GeojsonProcessor
  {
    assert MatchesAt(".geojson", "foo.geojson", 3);
    assert MatchesAt(".json", "foo.json", 3);
    assert MatchesAt(".json", "data.json.csv", 4);
  }

  /** A ".csv" URL is given to the CSV processor. */
  lemma CsvUrlExample()
    ensures ChooseProcessor("foo.csv") == CsvProcessor
  {
    assert !Includes("foo.csv", ".geojson");
    assert !Includes("csv", ".json");
    assert !Includes(".csv", ".json");
    assert "o.csv"[..5][0] != ".json"[0];
    assert !Includes("o.csv", ".json");
    assert "oo.csv"[..5][0] != ".json"[0];
    assert !Includes("oo.csv", ".json");
    assert "foo.csv"[..5][0] != ".json"[0];
    assert !Includes("foo.csv", ".json");
  }

  /** An explicit id names the dataset; without one the generated id does. */
  lemma DatasetIdExamples(env: Env, dataUrl: string)
    ensures DatasetId(env, LoadOptions(Some("abc"), dataUrl)) == "abc"
    ensures DatasetId(env, LoadOptions(None, dataUrl)) == env.generatedId
    ensures DatasetId(env, LoadOptions(Some(""), dataUrl)) == env.generatedId
  {
  }
}
