/**
  The chat endpoint: its request checks, the resolution of the active context
  items into one prompt, and `generate_and_save`, which relays the generation
  events to the browser and writes the exchange to the log.
 */
module MainRoutes {
  import opened Wrappers
  import opened Strings
  import opened Resolution
  import ContextProcessing
  import opened GeminiUtils

  // ---------------------------------------------------------------------
  // Context items
  // ---------------------------------------------------------------------

  /** What the resolvers see: the sandbox, the decoders, the answer each URL
      gets, and the exception, if any, that processing an item raises
      outside the resolvers' own handling. */
  datatype Backends = Backends(env: Env, lim: Limits, dec: ContextProcessing.Decoders,
                               http: string -> ContextProcessing.HttpResult,
                               raises: string -> Option<string>)

  predicate IsUrl(item: string) {
    StartsWith(item, "http://") || StartsWith(item, "https://")
  }

  /** The triple an item yields, or the exception it raised. */
  datatype ItemResult = Returned(outcome: Outcome) | Threw(detail: string)

  /** URLs go to the fetcher, everything else to the path resolver. */
  function Process(b: Backends, item: string): (r: ItemResult)
    ensures r.Returned? ==> r.outcome.info.original == item
    ensures r.Returned? && IsUrl(item) ==> r.outcome == ContextProcessing.Fetch(b.dec, b.lim, item, b.http(item))
    ensures r.Returned? && !IsUrl(item) ==> r.outcome == ContextProcessing.Resolve(b.env, b.lim, item)
  {
    if b.raises(item).Some? then Threw(b.raises(item).value)
    else if IsUrl(item) then Returned(ContextProcessing.Fetch(b.dec, b.lim, item, b.http(item)))
    else Returned(ContextProcessing.Resolve(b.env, b.lim, item))
  }

  /** One record of the log's context details: a resolver's info, or the
      record written for an unexpected exception. */
  datatype LogInfo = Processed(info: Info) | Unexpected(original: string, message: string)

  function Original(r: LogInfo): string {
    match r
    case Processed(info) => info.original
    case Unexpected(original, _) => original
  }

  /** `path_info.get("message") or f"Error processing: {item}"` */
  function ErrorText(item: string, info: Info): string {
    if info.message.Some? && MsgText(info.message.value) != "" then MsgText(info.message.value)
    else "Error processing: " + item
  }

  /** The text for an unexpected exception; the summarize endpoint adds
      " for summary". */
  function UnexpectedText(item: string, detail: string, forSummary: bool): string {
    "Unexpected error processing context item '" + item + "'" + (if forSummary then " for summary" else "")
    + ": " + detail
  }

  /** The gathered context, the error texts, and one record per item. */
  datatype Gathered = Gathered(context: string, errors: seq<string>, infos: seq<LogInfo>)

  /** What a single item contributes. */
  function ItemPart(b: Backends, item: string, forSummary: bool): (g: Gathered)
    ensures |g.infos| == 1 && Original(g.infos[0]) == item
    ensures |g.errors| <= 1
  {
    match Process(b, item)
    case Threw(e) =>
      Gathered("", [UnexpectedText(item, e, forSummary)], [Unexpected(item, UnexpectedText(item, e, forSummary))])
    case Returned(o) =>
      Gathered(o.context,
               if o.error.Some? then [ErrorText(item, o.info)] else [],
               [Processed(o.info)])
  }

  function Combine(g: Gathered, h: Gathered): Gathered {
    Gathered(g.context + h.context, g.errors + h.errors, g.infos + h.infos)
  }

  /** The loop over the items, in order, for any per-item contribution. */
  function GatherWith(part: string -> Gathered, items: seq<string>): Gathered
    decreases |items|
  {
    if items == [] then Gathered("", [], [])
    else Combine(GatherWith(part, items[..|items| - 1]), part(items[|items| - 1]))
  }

  function Part(b: Backends, forSummary: bool): string -> Gathered {
    item => ItemPart(b, item, forSummary)
  }

  /** The route's loop over the active context items. */
  function Gather(b: Backends, items: seq<string>, forSummary: bool): Gathered {
    GatherWith(Part(b, forSummary), items)
  }

  /** Items are processed independently: gathering a concatenation combines
      the two results, so no item, failed or not, changes what a later one
      contributes. */
  lemma {:induction false} GatherAppend(part: string -> Gathered, xs: seq<string>, ys: seq<string>)
    ensures GatherWith(part, xs + ys) == Combine(GatherWith(part, xs), GatherWith(part, ys))
    decreases |ys|
  {
    if ys == [] {
      assert xs + ys == xs;
    } else {
      var zs := xs + ys;
      assert zs[..|zs| - 1] == xs + ys[..|ys| - 1];
      GatherAppend(part, xs, ys[..|ys| - 1]);
      var g, h, l := GatherWith(part, xs), GatherWith(part, ys[..|ys| - 1]), part(ys[|ys| - 1]);
      assert Combine(Combine(g, h), l) == Combine(g, Combine(h, l));
    }
  }

  /** One record per item, in the order of the items, and at most one error
      text each. */
  lemma {:induction false} GatherRecords(part: string -> Gathered, items: seq<string>)
    requires forall x :: |part(x).infos| == 1 && Original(part(x).infos[0]) == x && |part(x).errors| <= 1
    ensures |GatherWith(part, items).infos| == |items|
    ensures forall k :: 0 <= k < |items| ==> Original(GatherWith(part, items).infos[k]) == items[k]
    ensures |GatherWith(part, items).errors| <= |items|
    decreases |items|
  {
    if items != [] {
      GatherRecords(part, items[..|items| - 1]);
    }
  }

  /** The route keeps one log record per context item, in order. */
  lemma GatherKeepsItems(b: Backends, items: seq<string>, forSummary: bool)
    ensures |Gather(b, items, forSummary).infos| == |items|
    ensures forall k :: 0 <= k < |items| ==> Original(Gather(b, items, forSummary).infos[k]) == items[k]
    ensures |Gather(b, items, forSummary).errors| <= |items|
  {
    GatherRecords(Part(b, forSummary), items);
  }

  /** Each item contributes what it alone would. */
  lemma GatherIndependent(b: Backends, xs: seq<string>, ys: seq<string>, forSummary: bool)
    ensures Gather(b, xs + ys, forSummary) == Combine(Gather(b, xs, forSummary), Gather(b, ys, forSummary))
  {
    GatherAppend(Part(b, forSummary), xs, ys);
  }

  /** A truncated URL adds both its context and its error. */
  lemma TruncatedUrlAddsBoth(b: Backends, item: string, forSummary: bool)
    requires b.raises(item).None? && IsUrl(item)
    requires ContextProcessing.Fetch(b.dec, b.lim, item, b.http(item)).error == Some(UrlTruncated(b.lim.maxUrlBytes))
    requires ContextProcessing.Fetch(b.dec, b.lim, item, b.http(item)).info.status == Ok
    ensures var o := ContextProcessing.Fetch(b.dec, b.lim, item, b.http(item));
      var g := Gather(b, [item], forSummary);
      g.context == o.context && o.context != "" && g.errors == [MsgText(UrlTruncated(b.lim.maxUrlBytes))]
  {
    var url := item;
    var o := ContextProcessing.Fetch(b.dec, b.lim, item, b.http(item));
    assert StartsWith(o.context, ContextProcessing.UrlHeader(url));
    assert MsgText(UrlTruncated(b.lim.maxUrlBytes))[0] == 'E';
    assert Process(b, item) == Returned(o);
    var part := ItemPart(b, item, forSummary);
    assert part == Gathered(o.context, [MsgText(UrlTruncated(b.lim.maxUrlBytes))], [Processed(o.info)]);
    assert [item][..0] == [];
    assert GatherWith(Part(b, forSummary), [item]) == Combine(Gathered("", [], []), part);
  }

  /** The context loop of the route. */
  method GatherItems(b: Backends, items: seq<string>, forSummary: bool) returns (g: Gathered)
    ensures g == Gather(b, items, forSummary)
  {
    ghost var part := Part(b, forSummary);
    var fullContext := "";
    var errors: seq<string> := [];
    var infos: seq<LogInfo> := [];
    for i := 0 to |items|
      invariant Gathered(fullContext, errors, infos) == GatherWith(part, items[..i])
    {
      var item := items[i];
      ghost var before := Gathered(fullContext, errors, infos);
      assert items[..i + 1][..i] == items[..i];
      assert GatherWith(part, items[..i + 1]) == Combine(before, ItemPart(b, item, forSummary));
      match Process(b, item) {
        case Threw(e) =>
          var msg := UnexpectedText(item, e, forSummary);
          errors := errors + [msg];
          infos := infos + [Unexpected(item, msg)];
        case Returned(o) =>
          infos := infos + [Processed(o.info)];
          if o.error.Some? {
            errors := errors + [ErrorText(item, o.info)];
          }
          if o.context != "" {
            fullContext := fullContext + o.context;
          } else {
            assert fullContext + o.context == fullContext;
          }
      }
      assert Gathered(fullContext, errors, infos) == Combine(before, ItemPart(b, item, forSummary));
    }
    assert items[..|items|] == items;
    return Gathered(fullContext, errors, infos);
  }

  // ---------------------------------------------------------------------
  // chat_endpoint
  // ---------------------------------------------------------------------

  /** The JSON body: `message` (absent, null or empty is `""`), `active_context`
      and `model_name` (the default when absent). */
  datatype ChatRequest = ChatRequest(message: string, items: seq<string>, modelName: string)

  /** What the two model listings give when they are consulted. */
  datatype Listing = Listing(sdk: SdkListing, api: ApiListing)

  datatype ChatError = KeyMissing | NothingToSend | InvalidModel(name: string, available: seq<string>)

  /** A refusal, or the prompt and what is kept for the log. */
  datatype ChatReply =
    | Refused(status: nat, error: ChatError)
    | Streaming(prompt: string, loggedMessage: string, gathered: Gathered)

  const PLACEHOLDER := "(Referring to provided context)"

  /** The model list the cached call gives. */
  function Cached(cache: seq<string>, apiKeySet: bool, l: Listing): seq<string> {
    if cache != [] then cache else Refreshed(apiKeySet, l.sdk, l.api)
  }

  /** The reply of `chat_endpoint` for a model cache holding `cache`; the
      first listing answers the cached call if it fetches, the second the
      forced refresh. */
  function Chat(cache: seq<string>, apiKeySet: bool, req: ChatRequest, first: Listing, second: Listing,
                b: Backends): (r: ChatReply)
    ensures r == Refused(500, KeyMissing) <==> !apiKeySet
    ensures r == Refused(400, NothingToSend) <==> apiKeySet && req.message == "" && req.items == []
    ensures apiKeySet && (req.message != "" || req.items != []) ==>
      (r.Refused? <==> req.modelName !in Cached(cache, apiKeySet, first)
                       && req.modelName !in Refreshed(apiKeySet, second.sdk, second.api))
    ensures r.Refused? && r.error.InvalidModel? ==>
      r == Refused(400, InvalidModel(req.modelName, Refreshed(apiKeySet, second.sdk, second.api)))
    ensures r.Streaming? ==>
      r.gathered == Gather(b, req.items, false) && r.loggedMessage == req.message
      && (req.message != "" ==> r.prompt == r.gathered.context + req.message)
      && (req.message == "" ==> r.prompt == r.gathered.context + PLACEHOLDER)
  {
    if !apiKeySet then Refused(500, KeyMissing)
    else if req.message == "" && req.items == [] then Refused(400, NothingToSend)
    else
      var available := Cached(cache, apiKeySet, first);
      var refreshed := Refreshed(apiKeySet, second.sdk, second.api);
      if req.modelName !in available && req.modelName !in refreshed then
        Refused(400, InvalidModel(req.modelName, refreshed))
      else
        var g := Gather(b, req.items, false);
        Streaming(g.context + (if req.message != "" then req.message else PLACEHOLDER), req.message, g)
  }

  /** With a key, something to send and a known model, the request always
      goes on to generation, however many items fail. */
  lemma FailedItemsStillGenerate(cache: seq<string>, req: ChatRequest, first: Listing, second: Listing,
                                 b: Backends)
    requires req.message != "" || req.items != []
    requires req.modelName in Cached(cache, true, first)
    ensures Chat(cache, true, req, first, second, b).Streaming?
  {
  }

  /** `chat_endpoint` on the model cache: at most one forced refresh, made
      only when the cached list lacks the model. */
  method ChatEndpoint(models: ModelCache, apiKeySet: bool, req: ChatRequest, first: Listing, second: Listing,
                      b: Backends) returns (reply: ChatReply)
    requires models.Valid()
    modifies models
    ensures models.Valid()
    ensures reply == Chat(old(models.cache), apiKeySet, req, first, second, b)
    ensures !apiKeySet || (req.message == "" && req.items == []) ==>
      models.cache == old(models.cache) && models.refreshes == old(models.refreshes)
    ensures var passes := apiKeySet && !(req.message == "" && req.items == []);
      var forced := passes && req.modelName !in Cached(old(models.cache), apiKeySet, first);
      && (passes && !forced ==> models.cache == Cached(old(models.cache), apiKeySet, first))
      && (forced ==> models.cache == Refreshed(apiKeySet, second.sdk, second.api))
      && (passes ==>
            models.refreshes
            == old(models.refreshes) + (if old(models.cache) == [] then 1 else 0) + (if forced then 1 else 0))
  {
    if !apiKeySet {
      return Refused(500, KeyMissing);
    }
    if req.message == "" && req.items == [] {
      return Refused(400, NothingToSend);
    }
    var available := models.GetAvailableModels(false, apiKeySet, first.sdk, first.api);
    if req.modelName !in available {
      available := models.GetAvailableModels(true, apiKeySet, second.sdk, second.api);
      if req.modelName !in available {
        return Refused(400, InvalidModel(req.modelName, available));
      }
    }
    var g := GatherItems(b, req.items, false);
    var display := if req.message != "" then req.message else PLACEHOLDER;
    reply := Streaming(g.context + display, req.message, g);
  }

  // ---------------------------------------------------------------------
  // generate_and_save
  // ---------------------------------------------------------------------

  /** What the browser receives: the context errors, then the relayed events. */
  datatype Outgoing = ContextErrorEv(text: string) | Forward(ev: Event)

  /** The events up to and including the first error event. */
  function UpToError(evs: seq<Event>): seq<Event>
    decreases |evs|
  {
    if evs == [] then []
    else if evs[0].ErrorEv? then [evs[0]]
    else [evs[0]] + UpToError(evs[1..])
  }

  /** The relayed events are a prefix of the events that stops right after
      the first error event, or takes them all when there is none. */
  lemma {:induction false} UpToErrorStopsAtError(evs: seq<Event>)
    ensures var r := UpToError(evs);
      |r| <= |evs| && r == evs[..|r|]
      && (forall k :: 0 <= k < |r| - 1 ==> !r[k].ErrorEv?)
      && (r != evs ==> r != [] && r[|r| - 1].ErrorEv?)
    decreases |evs|
  {
    if evs != [] && !evs[0].ErrorEv? {
      UpToErrorStopsAtError(evs[1..]);
      var t := UpToError(evs[1..]);
      assert UpToError(evs) == [evs[0]] + t;
      assert evs == [evs[0]] + evs[1..];
    }
  }

  function Forwarded(evs: seq<Event>): (r: seq<Outgoing>)
    ensures |r| == |evs| && forall k :: 0 <= k < |evs| ==> r[k] == Forward(evs[k])
  {
    seq(|evs|, k requires 0 <= k < |evs| => Forward(evs[k]))
  }

  function ContextErrors(errors: seq<string>): seq<Outgoing> {
    if errors == [] then [] else [ContextErrorEv(Join(errors, "\n"))]
  }

  predicate HasError(evs: seq<Event>) {
    exists k :: 0 <= k < |evs| && evs[k].ErrorEv?
  }

  /** The log is written when no error event came and some text did. */
  predicate Saves(evs: seq<Event>) {
    !HasError(evs) && TextOf(evs) != ""
  }

  /** One logged exchange. */
  datatype Entry = Entry(message: string, response: string, infos: seq<LogInfo>)

  /** The chat log, as an append-only sequence of entries. */
  class ChatLog {
    var entries: seq<Entry>

    constructor ()
      ensures entries == []
    {
      entries := [];
    }

    method Append(e: Entry)
      modifies this
      ensures entries == old(entries) + [e]
    {
      entries := entries + [e];
    }
  }

  /** Before the first error event, the relayed events are the events. */
  lemma {:induction false} UpToErrorPrefix(evs: seq<Event>, i: nat)
    requires i <= |evs| && forall k :: 0 <= k < i ==> !evs[k].ErrorEv?
    ensures UpToError(evs) == evs[..i] + UpToError(evs[i..])
    decreases i
  {
    if i > 0 {
      var tail := evs[1..];
      forall k | 0 <= k < i - 1
        ensures !tail[k].ErrorEv?
      {
        assert tail[k] == evs[k + 1];
      }
      UpToErrorPrefix(tail, i - 1);
      assert UpToError(evs) == [evs[0]] + UpToError(tail);
      assert tail[i - 1..] == evs[i..];
      assert evs[..i] == [evs[0]] + tail[..i - 1];
    }
  }

  lemma TextOfStep(evs: seq<Event>, i: nat)
    requires i < |evs|
    ensures TextOf(evs[..i + 1]) == TextOf(evs[..i]) + (if evs[i].Text? then evs[i].text else "")
  {
    assert evs[..i + 1] == evs[..i] + [evs[i]];
    TextOfAppend(evs[..i], [evs[i]]);
  }

  /** `generate_and_save`, reading each event as the event it is. */
  method GenerateAndSave(log: ChatLog, errors: seq<string>, message: string, infos: seq<LogInfo>,
                         evs: seq<Event>) returns (out: seq<Outgoing>)
    modifies log
    ensures out == ContextErrors(errors) + Forwarded(UpToError(evs))
    ensures log.entries == old(log.entries) + (if Saves(evs) then [Entry(message, TextOf(evs), infos)] else [])
  {
    out := ContextErrors(errors);
    var response := "";
    var i := 0;
    while i < |evs|
      invariant 0 <= i <= |evs|
      invariant forall k :: 0 <= k < i ==> !evs[k].ErrorEv?
      invariant response == TextOf(evs[..i])
      invariant out == ContextErrors(errors) + Forwarded(evs[..i])
      invariant log.entries == old(log.entries)
    {
      var ev := evs[i];
      TextOfStep(evs, i);
      assert Forwarded(evs[..i + 1]) == Forwarded(evs[..i]) + [Forward(ev)];
      out := out + [Forward(ev)];
      if ev.ErrorEv? {
        UpToErrorPrefix(evs, i);
        assert UpToError(evs[i..]) == [ev];
        assert HasError(evs);
        return;
      }
      if ev.Text? {
        response := response + ev.text;
      }
      i := i + 1;
    }
    assert evs[..i] == evs;
    UpToErrorPrefix(evs, i);
    assert UpToError(evs[i..]) == [];
    if response != "" {
      log.Append(Entry(message, response, infos));
    }
  }

  /** Every event of a generation is relayed, unchanged and in order. */
  lemma {:induction false} StreamRelayedWhole(evs: seq<Event>)
    requires forall k :: 0 <= k < |evs| - 1 ==> evs[k].Text?
    ensures UpToError(evs) == evs
    decreases |evs|
  {
    if evs != [] && !evs[0].ErrorEv? {
      StreamRelayedWhole(evs[1..]);
      assert evs == [evs[0]] + evs[1..];
    }
  }

  /** The log is written exactly when the generation completed with some
      text, and then holds the text of all chunks in order. */
  lemma SaveGate(g: Generation)
    ensures UpToError(StreamEvents(g)) == StreamEvents(g)
    ensures Saves(StreamEvents(g)) <==> g.failure.None? && Concat(g.chunks) != ""
    ensures TextOf(StreamEvents(g)) == Concat(g.chunks)
  {
    var evs := StreamEvents(g);
    StreamRelayedWhole(evs);
    StreamText(g);
    if g.failure.Some? {
      assert evs[|evs| - 1].ErrorEv?;
    }
  }

  // ---------------------------------------------------------------------
  // The wire format and the line that reads it back
  // ---------------------------------------------------------------------

  const HEX := "0123456789abcdef"

  /** `\uXXXX` with four lower-case hex digits. */
  function U4(n: nat): string
    requires n < 0x10000
  {
    "\\u" + [HEX[n / 0x1000], HEX[n / 0x100 % 16], HEX[n / 16 % 16], HEX[n % 16]]
  }

  /** How `json.dumps` writes one character with `ensure_ascii`. */
  function EscapeChar(c: char): string {
    if c == '"' then "\\\""
    else if c == '\\' then "\\\\"
    else if c == '\n' then "\\n"
    else if c == '\r' then "\\r"
    else if c == '\t' then "\\t"
    else if c as int == 8 then "\\b"
    else if c as int == 12 then "\\f"
    else if c as int < 0x20 || c as int > 0x7e then
      if c as int < 0x10000 then U4(c as int)
      else
        var v := c as int - 0x10000;
        U4(0xD800 + v / 0x400) + U4(0xDC00 + v % 0x400)
    else [c]
  }

  function Escaped(s: string): string
    decreases |s|
  {
    if s == [] then "" else EscapeChar(s[0]) + Escaped(s[1..])
  }

  /** `json.dumps` of a string. */
  function JsonString(s: string): string {
    "\"" + Escaped(s) + "\""
  }

  /** `json.dumps` of the dictionary an event carries. */
  function Payload(ev: Event): string {
    match ev
    case Text(t) => "{\"text\": " + JsonString(t) + "}"
    case EndStream => "{\"end_stream\": true}"
    case ErrorEv(m) => "{\"error\": " + JsonString(m) + "}"
  }

  const DATA := "data: "

  /** The server-sent event line `generate_response_stream` yields. */
  function Sse(ev: Event): string {
    DATA + Payload(ev) + "\n\n"
  }

  /** What `json.loads(chunk_data.split("data: ")[1])` recovers from the line
      of `ev`. The field is the payload and the trailing blank line when the
      payload does not hold "data: ", and that decodes to the event. Otherwise
      the field stops at the occurrence, which can only lie inside the JSON
      string literal (no key holds it), so the text is cut inside an unclosed
      string and decoding raises `JSONDecodeError`; the event is skipped. */
  function ReadBack(ev: Event): (r: Option<Event>)
    ensures r.None? <==> Contains(Payload(ev), DATA)
    ensures r.Some? ==> r.value == ev
  {
    SseField(Payload(ev));
    match SecondField(Sse(ev), DATA)
    case Some(field) => if field == Payload(ev) + "\n\n" then Some(ev) else None
    case None => None
  }

  /** A line "data: " + q + a blank line starts with "data: "; a second
      occurrence comes exactly when `q` holds one, and the field is then
      shorter than `q` and the blank line. */
  lemma SseField(q: string)
    ensures SecondField(DATA + q + "\n\n", DATA).Some?
    ensures SecondField(DATA + q + "\n\n", DATA).value == q + "\n\n" <==> !Contains(q, DATA)
  {
    var line := DATA + q + "\n\n";
    assert OccursAt(line, DATA, 0) by { assert line[0..6] == DATA; }
    if Contains(q, DATA) {
      SseFieldCut(q);
    } else {
      SseFieldWhole(q);
      assert line[6..] == q + "\n\n";
    }
  }

  lemma SseFieldCut(q: string)
    requires Contains(q, DATA)
    ensures FindFrom(DATA + q + "\n\n", DATA, 6) < 6 + |q|
  {
    var k := ContainsIndex(q, DATA);
    assert OccursAt(q, DATA, k);
    OccursInside(DATA, q, "\n\n", DATA, k);
  }

  lemma SseFieldWhole(q: string)
    requires !Contains(q, DATA)
    ensures FindFrom(DATA + q + "\n\n", DATA, 6) == 8 + |q|
  {
    NoOccurrenceAfter(DATA, q, "\n\n", DATA);
  }

  /** What the loop does as written: the relayed events, and the text it would
      save, if it saves. */
  datatype AsWrittenRun = AsWrittenRun(relayed: seq<Event>, saved: Option<string>)

  /** `generate_and_save` as written, from the event at `i` on with `acc`
      collected so far. */
  function RelayAsWritten(evs: seq<Event>, i: nat, acc: string): (r: AsWrittenRun)
    requires i <= |evs|
    ensures r.saved.Some? ==> r.saved.value != ""
    decreases |evs| - i
  {
    if i == |evs| then AsWrittenRun([], if acc != "" then Some(acc) else None)
    else
      var rest := match ReadBack(evs[i])
        case Some(Text(t)) => RelayAsWritten(evs, i + 1, acc + t)
        case Some(ErrorEv(_)) => AsWrittenRun([], None)
        case _ => RelayAsWritten(evs, i + 1, acc);
      AsWrittenRun([evs[i]] + rest.relayed, rest.saved)
  }

  /** What the corrected loop relays and saves from `evs` on, with `acc`
      collected before. */
  function Intended(evs: seq<Event>, acc: string): AsWrittenRun {
    AsWrittenRun(UpToError(evs),
                 if !HasError(evs) && acc + TextOf(evs) != "" then Some(acc + TextOf(evs)) else None)
  }

  /** Where no event is lost to the reader, the loop as written relays and
      saves what the corrected loop does, from the event at `i` on with
      `acc` collected so far. */
  lemma {:induction false} RelayAsWrittenAgrees(evs: seq<Event>, i: nat, acc: string)
    requires i <= |evs|
    requires forall k :: i <= k < |evs| ==> ReadBack(evs[k]) == Some(evs[k])
    ensures RelayAsWritten(evs, i, acc) == Intended(evs[i..], acc)
    decreases |evs| - i
  {
    if i < |evs| {
      var ev := evs[i];
      assert evs[i..] == [ev] + evs[i + 1..];
      if ev.ErrorEv? {
        IntendedError(ev, evs[i + 1..], acc);
      } else {
        RelayStep(evs, i, acc);
        RelayAsWrittenAgrees(evs, i + 1, acc + (if ev.Text? then ev.text else ""));
        IntendedCons(ev, evs[i + 1..], acc);
      }
    } else {
      assert evs[i..] == [];
      assert acc + "" == acc;
    }
  }

  lemma IntendedError(ev: Event, rest: seq<Event>, acc: string)
    requires ev.ErrorEv?
    ensures Intended([ev] + rest, acc) == AsWrittenRun([ev], None)
  {
    EventsCons(ev, rest);
  }

  lemma IntendedCons(ev: Event, rest: seq<Event>, acc: string)
    requires !ev.ErrorEv?
    ensures var t := if ev.Text? then ev.text else "";
      Intended([ev] + rest, acc) == AsWrittenRun([ev] + Intended(rest, acc + t).relayed, Intended(rest, acc + t).saved)
  {
    EventsCons(ev, rest);
    var t := if ev.Text? then ev.text else "";
    assert acc + t + TextOf(rest) == acc + (t + TextOf(rest));
  }

  /** One event read back as itself and not an error: it is relayed, its
      text collected, and the loop goes on. */
  lemma RelayStep(evs: seq<Event>, i: nat, acc: string)
    requires i < |evs| && ReadBack(evs[i]) == Some(evs[i]) && !evs[i].ErrorEv?
    ensures var rest := RelayAsWritten(evs, i + 1, acc + (if evs[i].Text? then evs[i].text else ""));
      RelayAsWritten(evs, i, acc) == AsWrittenRun([evs[i]] + rest.relayed, rest.saved)
  {
    if evs[i].Text? {
      assert acc + evs[i].text == acc + (if evs[i].Text? then evs[i].text else "");
    } else {
      assert acc + "" == acc;
    }
  }

  /** The relay, the text and the error test on a stream with one more event
      in front. */
  lemma EventsCons(ev: Event, rest: seq<Event>)
    ensures UpToError([ev] + rest) == if ev.ErrorEv? then [ev] else [ev] + UpToError(rest)
    ensures TextOf([ev] + rest) == (if ev.Text? then ev.text else "") + TextOf(rest)
    ensures HasError([ev] + rest) <==> ev.ErrorEv? || HasError(rest)
  {
    var evs := [ev] + rest;
    assert evs[0] == ev && evs[1..] == rest;
    if HasError(rest) {
      var k :| 0 <= k < |rest| && rest[k].ErrorEv?;
      assert evs[k + 1].ErrorEv?;
    }
    if HasError(evs) && !ev.ErrorEv? {
      var k :| 0 <= k < |evs| && evs[k].ErrorEv?;
      assert rest[k - 1].ErrorEv?;
    }
  }

  /** ... so from the start of the stream: the same events relayed, and the
      log text the corrected loop writes. */
  lemma RelayAsWrittenAgreesWhole(evs: seq<Event>)
    requires forall k :: 0 <= k < |evs| ==> !Contains(Payload(evs[k]), DATA)
    ensures RelayAsWritten(evs, 0, "").relayed == UpToError(evs)
    ensures RelayAsWritten(evs, 0, "").saved == if Saves(evs) then Some(TextOf(evs)) else None
  {
    RelayAsWrittenAgrees(evs, 0, "");
    assert evs[0..] == evs;
    assert Intended(evs, "") == RelayAsWritten(evs, 0, "");
    assert "" + TextOf(evs) == TextOf(evs);
  }

  /** A printable ASCII character other than a quote or a backslash, which
      `json.dumps` writes as itself. */
  predicate Plain(c: char) {
    0x20 <= c as int <= 0x7e && c != '"' && c != '\\'
  }

  lemma {:induction false} EscapedAppend(a: string, b: string)
    ensures Escaped(a + b) == Escaped(a) + Escaped(b)
    decreases |a|
  {
    if a == [] {
      assert a + b == b;
    } else {
      assert (a + b)[1..] == a[1..] + b;
      EscapedAppend(a[1..], b);
    }
  }

  lemma {:induction false} EscapedPlain(s: string)
    requires forall k :: 0 <= k < |s| ==> Plain(s[k])
    ensures Escaped(s) == s
    decreases |s|
  {
    if s != [] {
      EscapedPlain(s[1..]);
      assert s == [s[0]] + s[1..];
    }
  }

  /** The end-of-stream payload does not hold "data: ". */
  lemma EndStreamReadBack()
    ensures ReadBack(EndStream) == Some(EndStream)
  {
    var q := Payload(EndStream);
    assert q == "{\"end_stream\": true}";
    PairAbsent(q, DATA);
  }

  /** The stream of a single non-empty chunk. */
  lemma OneChunk(c: string, f: Option<Failure>)
    requires c != ""
    ensures StreamEvents(Generation([c], f))
            == [Text(c), if f.None? then EndStream else ErrorEv(FailureText(f.value))]
    ensures Concat([c]) == c
  {
    assert [c][1..] == [];
  }

  lemma EscapedData()
    ensures Escaped("data: ") == "data: "
  {
    EscapedPlain("data: ");
  }

  lemma EscapedInside(pre: string, post: string)
    ensures Escaped(pre + "data: " + post) == Escaped(pre) + "data: " + Escaped(post)
  {
    assert pre + "data: " + post == pre + ("data: " + post);
    EscapedAppend(pre, "data: " + post);
    EscapedAppend("data: ", post);
    EscapedData();
  }

  /** A string holding "data: " is encoded with "data: " in it. */
  lemma JsonHoldsData(pre: string, post: string)
    ensures Contains(JsonString(pre + "data: " + post), "data: ")
  {
    EscapedInside(pre, post);
    var e := Escaped(pre);
    var x := Escaped(pre + "data: " + post);
    assert x[|e|..|e| + 6] == "data: ";
    ContainsAt(x, "data: ", |e|);
    var j := JsonString(pre + "data: " + post);
    assert j[1..1 + |x|] == x;
    ContainsInfix(j, 1, 1 + |x|, "data: ");
  }

  /** Any event whose text or message holds "data: " is lost to the reader. */
  lemma DataLost(ev: Event, pre: string, post: string)
    requires ev == Text(pre + "data: " + post) || ev == ErrorEv(pre + "data: " + post)
    ensures ReadBack(ev) == None
  {
    var j := JsonString(pre + "data: " + post);
    JsonHoldsData(pre, post);
    var p := Payload(ev);
    var n := if ev.Text? then 9 else 10;
    assert p == p[..n] + j + "}";
    assert p[n..n + |j|] == j;
    ContainsInfix(p, n, n + |j|, "data: ");
  }

  /** A chunk whose text holds "data: " is relayed but not saved: the stream
      of the single chunk "data: x" is written to the log by the corrected
      loop and not at all as written. */
  lemma DataChunkNotSaved()
    ensures var evs := StreamEvents(Generation(["data: x"], None));
      RelayAsWritten(evs, 0, "").saved == None
      && Saves(evs) && TextOf(evs) == "data: x"
  {
    var t := "data: x";
    var g := Generation([t], None);
    var evs := StreamEvents(g);
    OneChunk(t, None);
    assert t == "" + "data: " + "x";
    DataLost(evs[0], "", "x");
    EndStreamReadBack();
    assert RelayAsWritten(evs, 2, "").saved == None;
    assert RelayAsWritten(evs, 1, "").saved == None;
    SaveGate(g);
  }

  lemma HiReadBack()
    ensures ReadBack(Text("hi")) == Some(Text("hi"))
  {
    EscapedPlain("hi");
    var p := Payload(Text("hi"));
    assert p == "{\"text\": \"hi\"}";
    PairAbsent(p, "data: ");
  }

  /** An error event whose message holds "data: " is missed: after the chunk
      "hi" and a failure "data: y" the log is written as written, while the
      corrected loop writes nothing. */
  lemma DataErrorMissed()
    ensures var evs := StreamEvents(Generation(["hi"], Some(OtherErr("data: y"))));
      RelayAsWritten(evs, 0, "").saved == Some("hi") && !Saves(evs)
  {
    var f := OtherErr("data: y");
    var evs := StreamEvents(Generation(["hi"], Some(f)));
    OneChunk("hi", Some(f));
    var head := "An error occurred during generation: ";
    assert FailureText(f) == head + "data: " + "y";
    DataLost(evs[1], head, "y");
    HiReadBack();
    assert RelayAsWritten(evs, 2, "hi").saved == Some("hi");
    assert RelayAsWritten(evs, 1, "hi").saved == Some("hi");
    assert "" + "hi" == "hi";
    assert RelayAsWritten(evs, 0, "").saved == RelayAsWritten(evs, 1, "hi").saved;
    assert HasError(evs) by { assert evs[1].ErrorEv?; }
  }
}
