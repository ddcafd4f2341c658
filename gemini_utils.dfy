/**
  The model-name cache behind `get_available_models`, and the map from the
  chunks of a streamed generation to the events sent to the browser
  (`generate_response_stream`). The SDK listing, the REST listing and the
  generation stream are supplied as values.
 */
module GeminiUtils {
  import opened Wrappers
  import opened Strings
  import opened Sorting
  import PathLex

  const DEFAULT_MODEL_NAME := "gemini-1.5-flash-latest"

  // ---------------------------------------------------------------------
  // get_available_models
  // ---------------------------------------------------------------------

  /** One model the SDK lists. */
  datatype SdkModel = SdkModel(name: string, supportedActions: seq<string>)

  /** Iterating `client.models.list()`: every model, or the models it yielded
      before it raised. */
  datatype SdkListing = SdkListed(models: seq<SdkModel>) | SdkRaised(yielded: seq<SdkModel>, reason: string)

  /** One entry of the REST listing: its `name` (absent or null is `None`) and
      its `supportedGenerationMethods`. */
  datatype ApiModel = ApiModel(name: Option<string>, methods: seq<string>)

  /** The REST call: the `models` array of the answer, or a failure of the
      request, of `raise_for_status` or of the JSON decoding. */
  datatype ApiListing = ApiListed(models: seq<ApiModel>) | ApiFailed(reason: string)

  /** `name.split('/')[-1]` */
  function LastSegment(name: string): (r: string)
    ensures '/' !in r
  {
    var parts := PathLex.SplitOn(name, '/');
    parts[|parts| - 1]
  }

  predicate SdkKeeps(m: SdkModel) {
    "generateContent" in m.supportedActions && StartsWith(LastSegment(m.name), "gemini")
  }

  /** The names the SDK loop appends, in listing order. */
  function SdkNames(ms: seq<SdkModel>): (r: seq<string>)
    ensures |r| <= |ms|
    decreases |ms|
  {
    if ms == [] then []
    else
      var m := ms[|ms| - 1];
      SdkNames(ms[..|ms| - 1]) + (if SdkKeeps(m) then [LastSegment(m.name)] else [])
  }

  predicate ApiKeeps(m: ApiModel) {
    "generateContent" in m.methods && m.name.Some? && StartsWith(m.name.value, "models/gemini")
  }

  /** The names of the entries the REST fallback keeps, in listing order,
      duplicates included. */
  function ApiCandidates(ms: seq<ApiModel>): seq<string>
    decreases |ms|
  {
    if ms == [] then []
    else
      var m := ms[|ms| - 1];
      ApiCandidates(ms[..|ms| - 1]) + (if ApiKeeps(m) then [LastSegment(m.name.value)] else [])
  }

  /** `models_list` after the REST loop, starting from `acc`: each kept name is
      appended unless already present. */
  function ApiNames(acc: seq<string>, ms: seq<ApiModel>): seq<string>
    decreases |ms|
  {
    if ms == [] then acc
    else
      var m := ms[|ms| - 1];
      var prev := ApiNames(acc, ms[..|ms| - 1]);
      if ApiKeeps(m) && LastSegment(m.name.value) !in prev then prev + [LastSegment(m.name.value)] else prev
  }

  /** `[DEFAULT_MODEL_NAME]` when nothing was found, otherwise the sorted list. */
  function SortedOrDefault(l: seq<string>): seq<string> {
    if l == [] then [DEFAULT_MODEL_NAME] else Sort(l)
  }

  /** The list the SDK attempt and its fallback produce. */
  function Fetched(sdk: SdkListing, api: ApiListing): seq<string> {
    match sdk
    case SdkListed(ms) => SortedOrDefault(SdkNames(ms))
    case SdkRaised(yielded, _) =>
      match api
      case ApiListed(ams) => SortedOrDefault(ApiNames(SdkNames(yielded), ams))
      case ApiFailed(_) => [DEFAULT_MODEL_NAME]
  }

  /** The list a call that does not use the cache returns: never empty, and
      always holding the default model. */
  function Refreshed(apiKeySet: bool, sdk: SdkListing, api: ApiListing): (r: seq<string>)
    ensures r != [] && DEFAULT_MODEL_NAME in r
    ensures !apiKeySet ==> r == [DEFAULT_MODEL_NAME]
  {
    if !apiKeySet then [DEFAULT_MODEL_NAME]
    else
      var l := Fetched(sdk, api);
      if DEFAULT_MODEL_NAME in l then l else [DEFAULT_MODEL_NAME] + l
  }

  /** The SDK loop. */
  method CollectSdkModels(ms: seq<SdkModel>) returns (modelsList: seq<string>)
    ensures modelsList == SdkNames(ms)
  {
    modelsList := [];
    for i := 0 to |ms|
      invariant modelsList == SdkNames(ms[..i])
    {
      assert ms[..i + 1][..i] == ms[..i];
      var m := ms[i];
      if "generateContent" in m.supportedActions {
        var modelName := LastSegment(m.name);
        if StartsWith(modelName, "gemini") {
          modelsList := modelsList + [modelName];
        }
      }
    }
    assert ms[..|ms|] == ms;
  }

  /** The REST loop, appending to what the SDK loop left. */
  method CollectApiModels(acc: seq<string>, ms: seq<ApiModel>) returns (modelsList: seq<string>)
    ensures modelsList == ApiNames(acc, ms)
  {
    modelsList := acc;
    for i := 0 to |ms|
      invariant modelsList == ApiNames(acc, ms[..i])
    {
      assert ms[..i + 1][..i] == ms[..i];
      var info := ms[i];
      if "generateContent" in info.methods {
        if info.name.Some? && StartsWith(info.name.value, "models/gemini") {
          var modelName := LastSegment(info.name.value);
          if modelName !in modelsList {
            modelsList := modelsList + [modelName];
          }
        }
      }
    }
    assert ms[..|ms|] == ms;
  }

  /** `FETCHED_MODELS_CACHE` and the function that fills it. */
  class ModelCache {
    var cache: seq<string>
    /** How many calls went past the cache. */
    ghost var refreshes: nat

    /** The cache is only ever assigned a list holding the default model. */
    ghost predicate Valid()
      reads this
    {
      cache == [] || DEFAULT_MODEL_NAME in cache
    }

    constructor ()
      ensures cache == [] && refreshes == 0 && Valid()
    {
      cache := [];
      refreshes := 0;
    }

    /** `get_available_models(force_refresh)`; `apiKeySet` says whether
        `GOOGLE_API_KEY` is set, `sdk` and `api` are what the two listings
        give if they are consulted. */
    method GetAvailableModels(forceRefresh: bool, apiKeySet: bool, sdk: SdkListing, api: ApiListing)
      returns (models: seq<string>)
      requires Valid()
      modifies this
      ensures Valid() && models == cache
      ensures models != [] && DEFAULT_MODEL_NAME in models
      ensures old(cache) != [] && !forceRefresh ==> models == old(cache) && refreshes == old(refreshes)
      ensures old(cache) == [] || forceRefresh ==>
        models == Refreshed(apiKeySet, sdk, api) && refreshes == old(refreshes) + 1
    {
      if cache != [] && !forceRefresh {
        return cache;
      }
      refreshes := refreshes + 1;
      if !apiKeySet {
        cache := [DEFAULT_MODEL_NAME];
        return cache;
      }
      var modelsList: seq<string> := [];
      match sdk {
        case SdkListed(ms) =>
          modelsList := CollectSdkModels(ms);
          if modelsList == [] {
            modelsList := [DEFAULT_MODEL_NAME];
          } else {
            modelsList := Sort(modelsList);
          }
        case SdkRaised(yielded, _) =>
          modelsList := CollectSdkModels(yielded);
          match api {
            case ApiListed(ams) =>
              modelsList := CollectApiModels(modelsList, ams);
              if modelsList == [] {
                modelsList := [DEFAULT_MODEL_NAME];
              } else {
                modelsList := Sort(modelsList);
              }
            case ApiFailed(_) =>
              modelsList := [DEFAULT_MODEL_NAME];
          }
      }
      assert modelsList == Fetched(sdk, api);
      if DEFAULT_MODEL_NAME !in modelsList {
        modelsList := [DEFAULT_MODEL_NAME] + modelsList;
      }
      cache := modelsList;
      return cache;
    }
  }

  /** Every name the SDK path keeps starts with "gemini" and has no '/'. */
  lemma {:induction false} SdkNamesAreGemini(ms: seq<SdkModel>)
    ensures forall x :: x in SdkNames(ms) ==> StartsWith(x, "gemini") && '/' !in x
    decreases |ms|
  {
    if ms != [] {
      SdkNamesAreGemini(ms[..|ms| - 1]);
    }
  }

  /** The SDK path keeps exactly the last segments of the models that support
      `generateContent` and whose last segment starts with "gemini". */
  lemma {:induction false} SdkNamesMeaning(ms: seq<SdkModel>)
    ensures forall x :: x in SdkNames(ms) <==> exists m :: m in ms && SdkKeeps(m) && LastSegment(m.name) == x
    decreases |ms|
  {
    if ms != [] {
      var init := ms[..|ms| - 1];
      var last := ms[|ms| - 1];
      SdkNamesMeaning(init);
      assert ms == init + [last];
      forall x | x in SdkNames(ms)
        ensures exists m :: m in ms && SdkKeeps(m) && LastSegment(m.name) == x
      {
        if x in SdkNames(init) {
          var m :| m in init && SdkKeeps(m) && LastSegment(m.name) == x;
          assert m in ms;
        } else {
          assert last in ms && SdkKeeps(last) && LastSegment(last.name) == x;
        }
      }
      forall x | exists m :: m in ms && SdkKeeps(m) && LastSegment(m.name) == x
        ensures x in SdkNames(ms)
      {
        var m :| m in ms && SdkKeeps(m) && LastSegment(m.name) == x;
        if m in init {
          assert x in SdkNames(init);
        } else {
          assert m == last;
        }
      }
    }
  }

  predicate NoDuplicates(l: seq<string>) {
    forall i, j :: 0 <= i < j < |l| ==> l[i] != l[j]
  }

  /** The REST fallback keeps what was there, adds exactly the kept names it
      did not have, and never adds a name twice. */
  lemma {:induction false} ApiNamesMeaning(acc: seq<string>, ms: seq<ApiModel>)
    ensures var r := ApiNames(acc, ms); |acc| <= |r| && r[..|acc|] == acc
    ensures forall x :: x in ApiNames(acc, ms) <==> x in acc || x in ApiCandidates(ms)
    ensures NoDuplicates(acc) ==> NoDuplicates(ApiNames(acc, ms))
    decreases |ms|
  {
    if ms != [] {
      ApiNamesMeaning(acc, ms[..|ms| - 1]);
      var prev := ApiNames(acc, ms[..|ms| - 1]);
      var m := ms[|ms| - 1];
      if ApiKeeps(m) {
        assert (prev + [LastSegment(m.name.value)])[..|acc|] == prev[..|acc|];
      }
    }
  }

  /** Whatever the listings give, the list apart from the added default is
      sorted; the default goes first when it was missing. */
  lemma RefreshedShape(sdk: SdkListing, api: ApiListing)
    ensures Sorted(Fetched(sdk, api))
    ensures DEFAULT_MODEL_NAME !in Fetched(sdk, api) ==>
      Refreshed(true, sdk, api) == [DEFAULT_MODEL_NAME] + Fetched(sdk, api)
    ensures DEFAULT_MODEL_NAME in Fetched(sdk, api) ==> Refreshed(true, sdk, api) == Fetched(sdk, api)
  {
  }

  const PRO := "gemini-1.0-pro"
  const PRO_ENTRY := SdkModel("models/gemini-1.0-pro", ["generateContent"])

  /** ... but the whole list need not be: when the SDK offers only
      "gemini-1.0-pro", the default is put in front of it, out of order. */
  lemma ResultNotAlwaysSorted(api: ApiListing)
    ensures Refreshed(true, SdkListed([PRO_ENTRY]), api) == [DEFAULT_MODEL_NAME, PRO]
    ensures !Sorted(Refreshed(true, SdkListed([PRO_ENTRY]), api))
  {
    RefreshedWithPro(api);
    DefaultAfterPro();
    var r := [DEFAULT_MODEL_NAME, PRO];
    assert !LexLe(r[0], r[1]);
  }

  lemma RefreshedWithPro(api: ApiListing)
    ensures Refreshed(true, SdkListed([PRO_ENTRY]), api) == [DEFAULT_MODEL_NAME, PRO]
  {
    ProFetched(api);
    assert |DEFAULT_MODEL_NAME| != |PRO|;
  }

  lemma ProFetched(api: ApiListing)
    ensures Fetched(SdkListed([PRO_ENTRY]), api) == [PRO]
  {
    OneProModel();
    SortSingle(PRO);
  }

  lemma SortSingle(x: string)
    ensures Sort([x]) == [x]
  {
    assert [x][1..] == [];
  }

  lemma ProSegment()
    ensures LastSegment(PRO_ENTRY.name) == PRO
  {
    assert Join(["models", PRO], "/") == PRO_ENTRY.name;
    PathLex.SplitJoin(["models", PRO], '/');
  }

  lemma OneProModel()
    ensures SdkNames([PRO_ENTRY]) == [PRO]
  {
    ProSegment();
    assert PRO[..6] == "gemini";
    assert SdkKeeps(PRO_ENTRY);
    assert [PRO_ENTRY][..0] == [];
  }

  lemma DefaultAfterPro()
    ensures !LexLe(DEFAULT_MODEL_NAME, PRO)
  {
    var b := PRO;
    assert DEFAULT_MODEL_NAME[..9] == b[..9];
    LexLeCommonPrefix(DEFAULT_MODEL_NAME, b, 9);
    assert DEFAULT_MODEL_NAME[9..][0] == '5' && b[9..][0] == '0';
  }

  // ---------------------------------------------------------------------
  // generate_response_stream
  // ---------------------------------------------------------------------

  /** The exception that ends a generation: a `ValueError` or any other. */
  datatype Failure = ValueErr(detail: string) | OtherErr(detail: string)

  /** What the SDK stream gives: the `text` of each chunk it yielded (a
      missing text is `""`), then the exception it raised, if any. */
  datatype Generation = Generation(chunks: seq<string>, failure: Option<Failure>)

  /** The payload of one server-sent event. */
  datatype Event = Text(text: string) | EndStream | ErrorEv(message: string)

  /** One text event per chunk with non-empty text. */
  function TextEvents(chunks: seq<string>): (evs: seq<Event>)
    ensures |evs| <= |chunks|
    ensures forall k :: 0 <= k < |evs| ==> evs[k].Text? && evs[k].text != ""
    decreases |chunks|
  {
    if chunks == [] then []
    else (if chunks[0] != "" then [Text(chunks[0])] else []) + TextEvents(chunks[1..])
  }

  /** Adding chunks adds their events after the others. */
  lemma {:induction false} TextEventsAppend(a: seq<string>, b: seq<string>)
    ensures TextEvents(a + b) == TextEvents(a) + TextEvents(b)
    decreases |a|
  {
    if a != [] {
      assert (a + b)[0] == a[0] && (a + b)[1..] == a[1..] + b;
      TextEventsAppend(a[1..], b);
    } else {
      assert a + b == b;
    }
  }

  function FailureText(f: Failure): string {
    match f
    case ValueErr(d) => "Model configuration error: " + d
    case OtherErr(d) => "An error occurred during generation: " + d
  }

  /** The events of `generate_response_stream`: the text events, then exactly
      one closing event, `end_stream` after a complete stream and an error
      after a failed one. */
  function StreamEvents(g: Generation): (evs: seq<Event>)
    ensures |evs| >= 1 && forall k :: 0 <= k < |evs| - 1 ==> evs[k].Text?
    ensures g.failure.None? <==> evs[|evs| - 1] == EndStream
    ensures g.failure.Some? ==> evs[|evs| - 1] == ErrorEv(FailureText(g.failure.value))
  {
    TextEvents(g.chunks) + [if g.failure.None? then EndStream else ErrorEv(FailureText(g.failure.value))]
  }

  /** The text fields of the text events, concatenated. */
  function TextOf(evs: seq<Event>): string
    decreases |evs|
  {
    if evs == [] then "" else (if evs[0].Text? then evs[0].text else "") + TextOf(evs[1..])
  }

  lemma {:induction false} TextOfAppend(a: seq<Event>, b: seq<Event>)
    ensures TextOf(a + b) == TextOf(a) + TextOf(b)
    decreases |a|
  {
    if a != [] {
      assert (a + b)[1..] == a[1..] + b;
      TextOfAppend(a[1..], b);
    } else {
      assert a + b == b;
    }
  }

  /** The text events carry exactly the text of the chunks, in order. */
  lemma {:induction false} TextEventsKeepText(chunks: seq<string>)
    ensures TextOf(TextEvents(chunks)) == Concat(chunks)
    decreases |chunks|
  {
    if chunks != [] {
      TextEventsKeepText(chunks[1..]);
      var head: seq<Event> := if chunks[0] != "" then [Text(chunks[0])] else [];
      TextOfAppend(head, TextEvents(chunks[1..]));
    }
  }

  lemma StreamText(g: Generation)
    ensures TextOf(StreamEvents(g)) == Concat(g.chunks)
  {
    var last: seq<Event> := [if g.failure.None? then EndStream else ErrorEv(FailureText(g.failure.value))];
    TextEventsKeepText(g.chunks);
    TextOfAppend(TextEvents(g.chunks), last);
  }

  /** A `ValueError` and any other exception give different messages. */
  lemma FailureKindsDiffer(a: string, b: string)
    ensures FailureText(ValueErr(a)) != FailureText(OtherErr(b))
  {
    assert FailureText(ValueErr(a))[0] == 'M' && FailureText(OtherErr(b))[0] == 'A';
  }
}
