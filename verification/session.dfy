/**
  The screen's state and the transitions that change it: mount and refresh
  (cloud load), the AI spec search, and the image flow that decides whether to
  escalate to that search. Each handler runs to completion here; busy flags,
  toasts and the camera are not modelled.
 */
module Session {
  import opened Wrappers
  import opened JsText
  import opened Labels
  import opened Catalog
  import opened Search
  import opened CloudLoader
  import opened Gemini

  /** `aiStatus`: `checking` until mount has inspected the key. */
  datatype AiStatus = Ready | MissingKey | Checking

  /** The state the handlers read and write. */
  datatype AppState = AppState(
    cloudData: seq<Record>,
    sessionAiData: seq<Record>,
    searchTerm: string,
    aiStatus: AiStatus,
    isLoading: bool)

  /** The external collaborators: the configured key and the two provider oracles. */
  datatype Services = Services(
    apiKey: Option<string>,
    vision: VisionRequest -> VisionReply,
    specs: string -> SpecReply)

  /** A handler's effect: the new state and the spec lookups (`handleAISearch` calls) it made. */
  datatype Step = Step(state: AppState, lookups: seq<string>)

  /** The state before mount: empty collections, empty term, loading, key not yet checked. */
  function InitialState(): AppState {
    AppState([], [], "", Checking, true)
  }

  /** The mount-time key check: truthy, not the text `undefined`, and longer than 10 code points. */
  function AiStatusOf(key: Option<string>): AiStatus {
    if key.Some? && key.value != [] && key.value != "undefined" && |key.value| > 10 then Ready
    else MissingKey
  }

  /**
    The status is never `checking` after mount, and it is `ready` exactly when
    a key longer than 10 code points is configured: the other two tests are
    implied by the length test. A ready status also means both service
    functions will contact the provider.
   */
  lemma AiStatusIff(key: Option<string>)
    ensures AiStatusOf(key) != Checking
    ensures AiStatusOf(key) == Ready <==> key.Some? && |key.value| > 10
    ensures AiStatusOf(key) == Ready ==> KeyTruthy(key)
  {
  }

  /**
    The state's AI status was decided from the same key the services use, as
    happens when one configuration feeds both mount and the service calls.
   */
  predicate KeyAgrees(s: AppState, services: Services) {
    s.aiStatus == AiStatusOf(services.apiKey)
  }

  /** `combinedData` of a state. */
  function CombinedView(s: AppState): seq<Record> {
    CombinedData(s.cloudData, s.sessionAiData)
  }

  /** `filteredResults` of a state. */
  function FilteredResults(s: AppState): seq<Record> {
    FilterResults(CombinedView(s), s.searchTerm)
  }

  /** The cloud load has no failing page among those it would request. */
  predicate PagesSucceed(b: Backend) {
    forall k :: 0 <= k < RequestCount(|b.rows|) ==> !FailsAtPage(b, k)
  }

  /**
    `fetchAllCloudData`: without a client nothing is requested; a complete
    load replaces `cloudData` with every row tagged as cloud; a failed load
    leaves `cloudData` exactly as it was. Loading ends on every path and
    nothing else changes.
   */
  method FetchAllCloudData(s: AppState, client: Option<Backend>) returns (s': AppState, requests: seq<nat>)
    ensures s' == s.(cloudData := s'.cloudData, isLoading := false)
    ensures client.None? ==> s'.cloudData == s.cloudData && requests == []
    ensures client.Some? && PagesSucceed(client.value) ==>
      && s'.cloudData == TagCloud(client.value.rows)
      && requests == Offsets(RequestCount(|client.value.rows|))
    ensures client.Some? && !PagesSucceed(client.value) ==> s'.cloudData == s.cloudData
  {
    if client.None? {
      return s.(isLoading := false), [];
    }
    var result;
    result, requests := FetchAllPages(client.value);
    match result
    case Loaded(records) =>
      s' := s.(cloudData := records, isLoading := false);
    case LoadFailed =>
      s' := s.(isLoading := false);
  }

  /** The mount effect: decide `aiStatus` from the key, then load the catalogue. */
  method Mount(key: Option<string>, client: Option<Backend>) returns (s: AppState, requests: seq<nat>)
    ensures s.aiStatus == AiStatusOf(key) && s.aiStatus != Checking
    ensures s.sessionAiData == [] && s.searchTerm == [] && !s.isLoading
    ensures client.Some? && PagesSucceed(client.value) ==> s.cloudData == TagCloud(client.value.rows)
    ensures client.None? || !PagesSucceed(client.value) ==> s.cloudData == []
  {
    var s0 := InitialState().(aiStatus := AiStatusOf(key));
    s, requests := FetchAllCloudData(s0, client);
  }

  /** The session record built from a successful spec lookup. */
  function AiRecord(query: string, specs: Specs): Record {
    Record(None, ToUpperAscii(query), specs.dac, specs.laser, Ai, true)
  }

  /**
    `handleAISearch(query)`: a no-op for an empty query or when AI is not
    ready; otherwise exactly one lookup, and on returned specs exactly one new
    record at the front of `sessionAiData` (upper-cased query, source `ai`,
    AI-generated) with the search term set to the raw query. Without specs
    the state is unchanged.
   */
  function HandleAISearch(s: AppState, services: Services, query: string): (o: Step)
    ensures query == [] || s.aiStatus != Ready ==> o == Step(s, [])
    ensures query != [] && s.aiStatus == Ready ==> o.lookups == [query]
    ensures o.state.cloudData == s.cloudData
    ensures o.state.aiStatus == s.aiStatus && o.state.isLoading == s.isLoading
    ensures o.state != s <==>
      query != [] && s.aiStatus == Ready && KeyTruthy(services.apiKey) && services.specs(query).ParsedObject?
    ensures o.state != s ==>
      && |o.state.sessionAiData| == |s.sessionAiData| + 1
      && o.state.sessionAiData[1..] == s.sessionAiData
      && o.state.sessionAiData[0] == AiRecord(query, services.specs(query).specs)
      && o.state.sessionAiData[0].source == Ai
      && o.state.sessionAiData[0].isAiGenerated
      && o.state.searchTerm == query
  {
    if query == [] || s.aiStatus != Ready then Step(s, [])
    else
      var lookup := FetchSpecsWithAI(services.apiKey, services.specs(query));
      match lookup.specs
      case Some(specs) =>
        var added := [AiRecord(query, specs)] + s.sessionAiData;
        assert |added| != |s.sessionAiData|;
        Step(s.(sessionAiData := added, searchTerm := query), [query])
      case None => Step(s, [query])
  }

  /**
    With the status decided from the services' own key, a ready status always
    reaches the provider: an AI search changes the state exactly when the
    query is non-empty and the reply parsed to a truthy value.
   */
  lemma ReadySearchReachesProvider(s: AppState, services: Services, query: string)
    requires KeyAgrees(s, services)
    ensures HandleAISearch(s, services, query).state != s <==>
      query != [] && s.aiStatus == Ready && services.specs(query).ParsedObject?
  {
    AiStatusIff(services.apiKey);
  }

  /** No handler touches the AI status, so a state that agrees with its services keeps agreeing. */
  lemma KeyAgreementPreserved(s: AppState, services: Services, query: string, image: string)
    requires KeyAgrees(s, services)
    ensures KeyAgrees(HandleAISearch(s, services, query).state, services)
    ensures KeyAgrees(ProcessImage(s, services, image).state, services)
  {
  }

  /** `cloudData.some(...)`: some cloud record fuzzily matches the detected text. */
  predicate HasCloudMatch(cloud: seq<Record>, detected: string) {
    exists m :: m in cloud && LabelMatches(m.model, Normalize(detected))
  }

  /**
    `processImage(data)`: identify the image; with no answer nothing changes.
    With an answer the search term becomes the detected text, and the spec
    lookup runs only when no cloud record matches it and AI is ready.
    (Identification never answers with an empty string, so `processImage`'s
    `if (detected)` is the `Some` case.)
   */
  function ProcessImage(s: AppState, services: Services, image: string): (o: Step)
    ensures o.state.cloudData == s.cloudData && o.state.aiStatus == s.aiStatus
    ensures o.state.isLoading == s.isLoading && |o.lookups| <= 1
    ensures o.lookups == [] ==> o.state.sessionAiData == s.sessionAiData
    ensures o.state.sessionAiData != s.sessionAiData ==>
      && o.lookups == [o.state.searchTerm]
      && |o.state.sessionAiData| == |s.sessionAiData| + 1
      && o.state.sessionAiData[1..] == s.sessionAiData
      && o.state.sessionAiData[0].source == Ai
      && o.state.sessionAiData[0].model == ToUpperAscii(o.state.searchTerm)
  {
    var id := IdentifyModelFromImage(services.apiKey, image, services.vision);
    match id.model
    case None => Step(s, [])
    case Some(detected) =>
      var s1 := s.(searchTerm := detected);
      if !HasCloudMatch(s.cloudData, detected) && s.aiStatus == Ready then
        HandleAISearch(s1, services, detected)
      else
        Step(s1, [])
  }

  /** The text the vision provider identified the image as, if any. */
  function Detected(services: Services, image: string): Option<string> {
    IdentifyModelFromImage(services.apiKey, image, services.vision).model
  }

  /**
    The escalation decision, exactly: no identification means no change and
    no lookup; an identification sets the search term and triggers one lookup
    of the detected text precisely when no cloud record matches and AI is
    ready, and none otherwise. Without a lookup only the search term changes;
    with one, the outcome is exactly that of `handleAISearch(detected)`.
   */
  lemma ProcessImageDecision(s: AppState, services: Services, image: string)
    ensures Detected(services, image).None? ==> ProcessImage(s, services, image) == Step(s, [])
    ensures Detected(services, image).Some? ==>
      var d := Detected(services, image).value;
      var o := ProcessImage(s, services, image);
      && d != []
      && o.state.searchTerm == d
      && o.lookups == (if !HasCloudMatch(s.cloudData, d) && s.aiStatus == Ready then [d] else [])
      && (o.lookups == [] ==> o.state == s.(searchTerm := d))
      && (o.lookups != [] ==> o == HandleAISearch(s.(searchTerm := d), services, d))
  {
  }

  /** A cloud record matches the detected text exactly when the cloud-only results for it are non-empty. */
  lemma CloudMatchIffResults(cloud: seq<Record>, detected: string)
    ensures HasCloudMatch(cloud, detected) <==> FilterResults(cloud, detected) != []
  {
    var term := Normalize(detected);
    if IsBlank(detected) {
      BlankNormalizesEmpty(detected);
      if cloud != [] {
        EmptyTermMatchesAll(cloud[0].model);
        assert cloud[0] in cloud;
      }
    } else {
      var r := KeepMatching(cloud, term);
      if HasCloudMatch(cloud, detected) {
        var m :| m in cloud && LabelMatches(m.model, term);
        KeepMatchingComplete(cloud, term, m);
        assert m in multiset(cloud);
      }
      if r != [] {
        SubsequenceMembers(r, cloud);
        assert r[0] in cloud && LabelMatches(r[0].model, term);
      }
    }
  }

  /** Text made only of trimmable code points has no letters or digits left after normalising. */
  lemma {:induction false} BlankNormalizesEmpty(t: string)
    requires IsBlank(t)
    ensures Normalize(t) == []
    decreases |t|
  {
    if t != [] {
      assert IsTrimmable(t[0]);
      assert IsBlank(t[1..]) by {
        assert forall i :: 0 <= i < |t[1..]| ==> t[1..][i] == t[i + 1];
      }
      BlankNormalizesEmpty(t[1..]);
    }
  }

  /**
    Escalation in terms of what the user would see from the cloud alone: after
    an identification, a lookup runs exactly when filtering `cloudData` by the
    detected text leaves nothing and AI is ready.
   */
  lemma EscalatesIffNoCloudResults(s: AppState, services: Services, image: string)
    requires Detected(services, image).Some?
    ensures
      var d := Detected(services, image).value;
      |ProcessImage(s, services, image).lookups| == 1 <==>
        FilterResults(s.cloudData, d) == [] && s.aiStatus == Ready
  {
    CloudMatchIffResults(s.cloudData, Detected(services, image).value);
  }

  /** Identifying a model the cloud already holds (up to case and punctuation) never escalates. */
  lemma KnownModelNeverEscalates(s: AppState, services: Services, image: string, m: Record)
    requires Detected(services, image).Some?
    requires m in s.cloudData && Normalize(m.model) == Normalize(Detected(services, image).value)
    ensures ProcessImage(s, services, image).lookups == []
  {
    IncludesSelf(Normalize(m.model));
  }

  /** The session's AI records are never consulted when deciding to escalate. */
  lemma SessionDataNotConsulted(s: AppState, services: Services, image: string, other: seq<Record>)
    ensures ProcessImage(s.(sessionAiData := other), services, image).lookups
         == ProcessImage(s, services, image).lookups
  {
  }

  /** A detected text with no letters or digits counts as a match whenever the cloud has any record. */
  lemma EmptyKeyDetectionNeverEscalates(s: AppState, services: Services, image: string)
    requires Detected(services, image).Some? && Normalize(Detected(services, image).value) == []
    requires s.cloudData != []
    ensures ProcessImage(s, services, image).lookups == []
  {
    EmptyTermMatchesAll(s.cloudData[0].model);
    assert s.cloudData[0] in s.cloudData;
  }

  /**
    After a successful AI search, the combined view is the old one plus the
    new record, and the new record is among the results the search term now
    shows.
   */
  lemma NewAiRecordIsShown(s: AppState, services: Services, query: string)
    requires HandleAISearch(s, services, query).state != s
    ensures
      var o := HandleAISearch(s, services, query);
      var x := o.state.sessionAiData[0];
      && multiset(CombinedView(o.state)) == multiset(CombinedView(s)) + multiset{x}
      && x in FilteredResults(o.state)
  {
    var o := HandleAISearch(s, services, query);
    var x := o.state.sessionAiData[0];
    var view := CombinedView(o.state);
    assert o.state.sessionAiData == [x] + s.sessionAiData;
    assert x in multiset(view);
    if !IsBlank(query) {
      MatchesOwnText(query);
      KeepMatchingComplete(view, Normalize(query), x);
    }
  }

  /**
    The "Use Gemini AI" button: shown only when loading has finished, nothing
    is being identified or searched, the results are empty, the term is
    non-empty and AI is ready.
   */
  predicate ShowAiButton(s: AppState, isProcessingImage: bool, isSearchingAI: bool) {
    && !(!s.isLoading && |FilteredResults(s)| > 0)
    && !s.isLoading && !isProcessingImage && !isSearchingAI
    && s.searchTerm != [] && s.aiStatus == Ready
  }

  /** Pressing the button on an empty result list runs exactly one lookup of the current term. */
  lemma AiButtonLooksUpTerm(s: AppState, services: Services, busyImage: bool, busyAI: bool)
    requires ShowAiButton(s, busyImage, busyAI)
    ensures FilteredResults(s) == []
    ensures HandleAISearch(s, services, s.searchTerm).lookups == [s.searchTerm]
  {
  }
}
