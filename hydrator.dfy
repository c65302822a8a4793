/**
 * The section hydrator store: one call of `fetch(url, sectionId, slots)` asks the
 * server's section rendering endpoint for a section, copies the listed slots of
 * the answer into the live page, pushes a history entry and broadcasts
 * `section:loading-*` events around it all.
 *
 * The live document and the fetched one are maps from element id to inner HTML.
 * The server's answer is an input. Broadcast events, history entries, issued
 * requests, binding re-initialisations and warnings are kept as logs.
 */
module Hydrator {
  import opened Wrappers
  import opened Urls

  datatype EventKind = LoadingStart | LoadingSuccess | LoadingError | LoadingEnd

  /** What makes a call fail: the URL constructor's TypeError, a rejected network fetch, or a non-OK status. */
  datatype FetchError = InvalidUrl | NetworkFailure | HttpStatus(status: int)

  /** The `{url, sectionId, slots}` detail every event of one call carries. */
  datatype Detail = Detail(url: string, sectionId: string, slots: seq<string>)

  /**
   * One `section:<kind>` event. `seenLoading` is what `isLoading()` returns to a
   * listener while the event is dispatched (dispatch is synchronous).
   */
  datatype Event = Event(kind: EventKind, detail: Detail, error: Option<FetchError>, seenLoading: bool)

  /** The server's answer: a response with its status and its body's elements by id, or a failed transport. */
  datatype ServerAnswer = Response(status: int, doc: map<string, string>) | TransportFailure

  /** How the promise returned by `fetch` settles. */
  datatype Completion = Resolved | Rejected(error: FetchError)

  datatype StoreState = StoreState(
    isHydrating: bool,
    dom: map<string, string>,
    events: seq<Event>,
    history: seq<Url>,
    requests: seq<Url>,
    reinitialised: seq<string>,
    warnings: seq<string>)

  datatype Step = Step(state: StoreState, completion: Completion)

  const SectionParam := "section_id"

  /** `response.ok`. */
  predicate Ok(status: int)
  {
    200 <= status <= 299
  }

  /** The URL the GET goes to: the query with `section_id` set. */
  function FetchTarget(u: Url, sectionId: string): Url
  {
    u.(query := SetParam(u.query, SectionParam, sectionId))
  }

  /** The URL pushed onto the history: the query with `section_id` deleted. */
  function HistoryEntry(u: Url): Url
  {
    u.(query := DeleteParam(u.query, SectionParam))
  }

  predicate Found(live: map<string, string>, doc: map<string, string>, id: string)
  {
    id in doc && id in live
  }

  /** The slots, in order, found in both documents. */
  function Matched(live: map<string, string>, doc: map<string, string>, slots: seq<string>): seq<string>
  {
    if slots == [] then []
    else
      var id := slots[|slots| - 1];
      Matched(live, doc, slots[..|slots| - 1]) + (if Found(live, doc, id) then [id] else [])
  }

  /** The slots, in order, missing from one document or the other. */
  function Missing(live: map<string, string>, doc: map<string, string>, slots: seq<string>): seq<string>
  {
    if slots == [] then []
    else
      var id := slots[|slots| - 1];
      Missing(live, doc, slots[..|slots| - 1]) + (if Found(live, doc, id) then [] else [id])
  }

  /** The live document once every slot found in both documents holds the fetched content. */
  function Swapped(live: map<string, string>, doc: map<string, string>, slots: seq<string>): map<string, string>
  {
    map id | id in live :: if id in slots && id in doc then doc[id] else live[id]
  }

  /** Every listed slot is either matched or missing, never both, and the two lists keep the slots' order. */
  lemma {:induction false} MatchedMissing(live: map<string, string>, doc: map<string, string>, slots: seq<string>)
    ensures |Matched(live, doc, slots)| + |Missing(live, doc, slots)| == |slots|
    ensures forall id :: id in Matched(live, doc, slots) <==> id in slots && Found(live, doc, id)
    ensures forall id :: id in Missing(live, doc, slots) <==> id in slots && !Found(live, doc, id)
  {
    if slots != [] {
      var init := slots[..|slots| - 1];
      MatchedMissing(live, doc, init);
      assert slots == init + [slots[|slots| - 1]];
    }
  }

  /** The effects of the `try` block once the request is sent: the slot swap or the error. */
  function Attempt(s: StoreState, alpine: bool, u: Url, d: Detail, answer: ServerAnswer): (r: StoreState)
    ensures r.isHydrating == s.isHydrating && r.requests == s.requests
    ensures |r.events| == |s.events| + 1
    ensures !Succeeds(answer) ==> r.dom == s.dom && r.history == s.history &&
                                  r.reinitialised == s.reinitialised && r.warnings == s.warnings
    ensures Succeeds(answer) ==> |r.history| == |s.history| + 1
  {
    match answer
    case TransportFailure =>
      s.(events := s.events + [Event(LoadingError, d, Some(NetworkFailure), s.isHydrating)])
    case Response(status, doc) =>
      if !Ok(status) then
        s.(events := s.events + [Event(LoadingError, d, Some(HttpStatus(status)), s.isHydrating)])
      else
        s.(dom := Swapped(s.dom, doc, d.slots),
           reinitialised := s.reinitialised + (if alpine then Matched(s.dom, doc, d.slots) else []),
           warnings := s.warnings + Missing(s.dom, doc, d.slots),
           history := s.history + [HistoryEntry(u)],
           events := s.events + [Event(LoadingSuccess, d, None, s.isHydrating)])
  }

  /** One call of `fetch(url, sectionId, slots)` against the given answer, from state `s`. */
  function FetchSpec(s: StoreState, alpine: bool, url: string, sectionId: string, slots: seq<string>,
                     answer: ServerAnswer): (r: Step)
    ensures r.completion == Resolved <==> Parse(url).Some?
    ensures r.state.isHydrating <==> Parse(url).None?
    ensures |r.state.events| == |s.events| + (if Parse(url).Some? then 3 else 1)
    ensures |r.state.requests| == |s.requests| + (if Parse(url).Some? then 1 else 0)
  {
    var d := Detail(url, sectionId, slots);
    match Parse(url)
    case None => Step(Started(s, d), Rejected(InvalidUrl))
    case Some(u) => Step(Finished(Attempt(Sent(s, d, u, sectionId), alpine, u, d, answer), d), Resolved)
  }

  /** The state once the flag is set and `loading-start` is broadcast. */
  function Started(s: StoreState, d: Detail): StoreState
  {
    s.(isHydrating := true, events := s.events + [Event(LoadingStart, d, None, true)])
  }

  /** The state once the request to the URL with `section_id` set is sent. */
  function Sent(s: StoreState, d: Detail, u: Url, sectionId: string): StoreState
  {
    var started := Started(s, d);
    started.(requests := started.requests + [FetchTarget(u, sectionId)])
  }

  /** The `finally` block: the flag is cleared and `loading-end` is broadcast. */
  function Finished(t: StoreState, d: Detail): StoreState
  {
    t.(isHydrating := false, events := t.events + [Event(LoadingEnd, d, None, false)])
  }

  /** A call whose answer is a response with an OK status. */
  predicate Succeeds(answer: ServerAnswer)
  {
    answer.Response? && Ok(answer.status)
  }

  /**
   * Once the URL is built, a call broadcasts `loading-start`, then exactly one of
   * `loading-success` and `loading-error`, then `loading-end`, all with the call's
   * detail; `isLoading()` is true during the first two and false during the last,
   * and stays false afterwards.
   */
  lemma FetchEvents(s: StoreState, alpine: bool, url: string, sectionId: string, slots: seq<string>,
                    answer: ServerAnswer)
    requires Parse(url).Some?
    ensures var r := FetchSpec(s, alpine, url, sectionId, slots, answer);
            var d := Detail(url, sectionId, slots);
            var n := |s.events|;
            r.completion == Resolved && !r.state.isHydrating &&
            |r.state.events| == n + 3 && r.state.events[..n] == s.events &&
            r.state.events[n] == Event(LoadingStart, d, None, true) &&
            r.state.events[n + 1].detail == d && r.state.events[n + 1].seenLoading &&
            (r.state.events[n + 1].kind == LoadingSuccess <==> Succeeds(answer)) &&
            (r.state.events[n + 1].kind == LoadingError <==> !Succeeds(answer)) &&
            r.state.events[n + 2] == Event(LoadingEnd, d, None, false)
  {
    var d := Detail(url, sectionId, slots);
    var u := Parse(url).value;
    var sent := Sent(s, d, u, sectionId);
    var tried := Attempt(sent, alpine, u, d, answer);
    AttemptEvent(sent, alpine, u, d, answer);
    assert FetchSpec(s, alpine, url, sectionId, slots, answer).state == Finished(tried, d);
    assert tried.events[..|s.events| + 1] == sent.events;
  }

  /** The `try` block adds one event, success exactly when the answer is 2xx, seen while loading. */
  lemma AttemptEvent(s: StoreState, alpine: bool, u: Url, d: Detail, answer: ServerAnswer)
    ensures var t := Attempt(s, alpine, u, d, answer);
            |t.events| == |s.events| + 1 && t.events[..|s.events|] == s.events &&
            var e := t.events[|s.events|];
            e.detail == d && e.seenLoading == s.isHydrating &&
            (e.kind == LoadingSuccess <==> Succeeds(answer)) && (e.kind == LoadingError <==> !Succeeds(answer))
  {
  }

  /**
   * A URL the constructor rejects escapes before the `try`: only `loading-start` is
   * broadcast, `isHydrating` stays true and nothing else changes.
   */
  lemma FetchInvalidUrl(s: StoreState, alpine: bool, url: string, sectionId: string, slots: seq<string>,
                        answer: ServerAnswer)
    requires Parse(url).None?
    ensures var r := FetchSpec(s, alpine, url, sectionId, slots, answer);
            r.completion == Rejected(InvalidUrl) && r.state.isHydrating &&
            r.state.events == s.events + [Event(LoadingStart, Detail(url, sectionId, slots), None, true)] &&
            r.state.dom == s.dom && r.state.history == s.history && r.state.requests == s.requests &&
            r.state.reinitialised == s.reinitialised && r.state.warnings == s.warnings
  {
  }

  /**
   * The GET goes to `url` with exactly one `section_id` pair, whose value is the
   * section id; every other pair of `url` keeps its order.
   */
  lemma FetchRequest(s: StoreState, alpine: bool, url: string, sectionId: string, slots: seq<string>,
                     answer: ServerAnswer)
    requires Parse(url).Some?
    ensures var u := Parse(url).value;
            var r := FetchSpec(s, alpine, url, sectionId, slots, answer).state;
            |r.requests| == |s.requests| + 1 && r.requests[..|s.requests|] == s.requests &&
            var t := r.requests[|s.requests|];
            t.head == u.head && t.fragment == u.fragment &&
            CountName(t.query, SectionParam) == 1 &&
            (forall p :: p in t.query && p.0 == SectionParam ==> p.1 == sectionId) &&
            DeleteParam(t.query, SectionParam) == DeleteParam(u.query, SectionParam)
  {
    var u := Parse(url).value;
    FetchSent(s, alpine, url, sectionId, slots, answer);
    SetParamNamed(u.query, SectionParam, sectionId);
    SetParamOthers(u.query, SectionParam, sectionId);
  }

  /** A call with a valid URL sends exactly one request, to the URL with `section_id` set. */
  lemma FetchSent(s: StoreState, alpine: bool, url: string, sectionId: string, slots: seq<string>,
                  answer: ServerAnswer)
    requires Parse(url).Some?
    ensures FetchSpec(s, alpine, url, sectionId, slots, answer).state.requests ==
            s.requests + [FetchTarget(Parse(url).value, sectionId)]
  {
    var u := Parse(url).value;
    var d := Detail(url, sectionId, slots);
    var sent := s.(isHydrating := true, events := s.events + [Event(LoadingStart, d, None, true)],
                   requests := s.requests + [FetchTarget(u, sectionId)]);
    AttemptKeepsRequests(sent, alpine, u, d, answer);
  }

  lemma AttemptKeepsRequests(s: StoreState, alpine: bool, u: Url, d: Detail, answer: ServerAnswer)
    ensures Attempt(s, alpine, u, d, answer).requests == s.requests
  {
  }

  /**
   * Only a successful call pushes a history entry: `url` without any `section_id`
   * pair, which is also the requested URL with `section_id` deleted.
   */
  lemma FetchHistory(s: StoreState, alpine: bool, url: string, sectionId: string, slots: seq<string>,
                     answer: ServerAnswer)
    requires Parse(url).Some?
    ensures var u := Parse(url).value;
            var r := FetchSpec(s, alpine, url, sectionId, slots, answer).state;
            var t := FetchTarget(u, sectionId);
            if Succeeds(answer) then
              r.history == s.history + [HistoryEntry(u)] &&
              CountName(HistoryEntry(u).query, SectionParam) == 0 &&
              HistoryEntry(u) == t.(query := DeleteParam(t.query, SectionParam))
            else
              r.history == s.history
  {
    var u := Parse(url).value;
    DeleteAfterSet(u.query, SectionParam, sectionId);
  }

  /** On the error path the live document, the history and both logs are untouched. */
  lemma FetchErrorPath(s: StoreState, alpine: bool, url: string, sectionId: string, slots: seq<string>,
                       answer: ServerAnswer)
    requires Parse(url).Some? && !Succeeds(answer)
    ensures var r := FetchSpec(s, alpine, url, sectionId, slots, answer).state;
            r.dom == s.dom && r.history == s.history &&
            r.reinitialised == s.reinitialised && r.warnings == s.warnings &&
            r.events[|s.events| + 1].error ==
              Some(if answer.TransportFailure? then NetworkFailure else HttpStatus(answer.status))
  {
  }

  /**
   * After a successful call, each listed slot found in both documents holds the
   * fetched content and is re-initialised (when Alpine is loaded); each listed
   * slot missing from either side keeps its content and adds one warning; no
   * other element changes and no element is added or removed.
   */
  lemma {:induction false} FetchSlots(s: StoreState, alpine: bool, url: string, sectionId: string,
                                      slots: seq<string>, answer: ServerAnswer)
    requires Parse(url).Some? && Succeeds(answer)
    ensures var r := FetchSpec(s, alpine, url, sectionId, slots, answer).state;
            var doc := answer.doc;
            r.dom.Keys == s.dom.Keys &&
            (forall id :: id in slots && Found(s.dom, doc, id) ==> r.dom[id] == doc[id]) &&
            (forall id :: id in s.dom && !(id in slots && id in doc) ==> r.dom[id] == s.dom[id]) &&
            (forall id :: id in r.reinitialised[|s.reinitialised|..] <==>
                           alpine && id in slots && Found(s.dom, doc, id)) &&
            (forall id :: id in r.warnings[|s.warnings|..] <==> id in slots && !Found(s.dom, doc, id)) &&
            (alpine ==> (|r.reinitialised| - |s.reinitialised|) + (|r.warnings| - |s.warnings|) == |slots|)
  {
    var r := FetchSpec(s, alpine, url, sectionId, slots, answer).state;
    MatchedMissing(s.dom, answer.doc, slots);
    assert r.warnings[|s.warnings|..] == Missing(s.dom, answer.doc, slots);
    assert r.reinitialised[|s.reinitialised|..] ==
           if alpine then Matched(s.dom, answer.doc, slots) else [];
  }

  /** The slot loop's invariant: the slots in `done` are processed. */
  ghost predicate SwapProgress(live: map<string, string>, doc: map<string, string>, alpine: bool,
                               reinit0: seq<string>, warnings0: seq<string>, done: seq<string>,
                               dom: map<string, string>, reinit: seq<string>, warnings: seq<string>)
  {
    dom == Swapped(live, doc, done) &&
    reinit == reinit0 + (if alpine then Matched(live, doc, done) else []) &&
    warnings == warnings0 + Missing(live, doc, done)
  }

  /** The prefix of one more element. */
  lemma PrefixSnoc(slots: seq<string>, i: nat)
    requires i < |slots|
    ensures slots[..i + 1] == slots[..i] + [slots[i]]
  {
  }

  /** Processing one more slot keeps the slot loop's invariant. */
  lemma SwapProgressStep(live: map<string, string>, doc: map<string, string>, alpine: bool,
                         reinit0: seq<string>, warnings0: seq<string>, done: seq<string>, id: string,
                         dom: map<string, string>, reinit: seq<string>, warnings: seq<string>)
    requires SwapProgress(live, doc, alpine, reinit0, warnings0, done, dom, reinit, warnings)
    ensures SwapProgress(live, doc, alpine, reinit0, warnings0, done + [id],
                         if Found(dom, doc, id) then dom[id := doc[id]] else dom,
                         reinit + (if alpine && Found(dom, doc, id) then [id] else []),
                         warnings + (if Found(dom, doc, id) then [] else [id]))
  {
    SwappedStep(live, doc, done, id, dom);
    ReinitStep(live, doc, alpine, reinit0, done, id, reinit);
    WarningStep(live, doc, warnings0, done, id, warnings);
  }

  lemma ReinitStep(live: map<string, string>, doc: map<string, string>, alpine: bool,
                   reinit0: seq<string>, done: seq<string>, id: string, reinit: seq<string>)
    requires reinit == reinit0 + (if alpine then Matched(live, doc, done) else [])
    ensures reinit + (if alpine && Found(live, doc, id) then [id] else []) ==
            reinit0 + (if alpine then Matched(live, doc, done + [id]) else [])
  {
    MatchedSnoc(live, doc, done, id);
    var matched := Matched(live, doc, done);
    if !alpine {
      assert reinit + [] == reinit;
    } else if Found(live, doc, id) {
      assert Matched(live, doc, done + [id]) == matched + [id];
      AppendAssoc(reinit0, matched, [id]);
    } else {
      assert Matched(live, doc, done + [id]) == matched;
      assert reinit + [] == reinit;
    }
  }

  lemma WarningStep(live: map<string, string>, doc: map<string, string>,
                    warnings0: seq<string>, done: seq<string>, id: string, warnings: seq<string>)
    requires warnings == warnings0 + Missing(live, doc, done)
    ensures warnings + (if Found(live, doc, id) then [] else [id]) == warnings0 + Missing(live, doc, done + [id])
  {
    MatchedSnoc(live, doc, done, id);
    var missing := Missing(live, doc, done);
    if Found(live, doc, id) {
      assert Missing(live, doc, done + [id]) == missing;
      assert warnings + [] == warnings;
    } else {
      assert Missing(live, doc, done + [id]) == missing + [id];
      AppendAssoc(warnings0, missing, [id]);
    }
  }

  lemma AppendAssoc<T>(a: seq<T>, b: seq<T>, c: seq<T>)
    ensures a + b + c == a + (b + c)
  {
  }

  /** The swap of one more slot, as the callback performs it on the partly swapped document. */
  lemma SwappedStep(live: map<string, string>, doc: map<string, string>, done: seq<string>, id: string,
                    dom: map<string, string>)
    requires dom == Swapped(live, doc, done)
    ensures Found(dom, doc, id) == Found(live, doc, id)
    ensures Swapped(live, doc, done + [id]) == if Found(dom, doc, id) then dom[id := doc[id]] else dom
  {
    assert id in dom <==> id in live;
    SwappedSnoc(live, doc, done, id);
  }

  lemma MatchedSnoc(live: map<string, string>, doc: map<string, string>, slots: seq<string>, id: string)
    ensures Matched(live, doc, slots + [id]) == Matched(live, doc, slots) + (if Found(live, doc, id) then [id] else [])
    ensures Missing(live, doc, slots + [id]) == Missing(live, doc, slots) + (if Found(live, doc, id) then [] else [id])
  {
    assert (slots + [id])[..|slots|] == slots;
  }

  lemma SwappedSnoc(live: map<string, string>, doc: map<string, string>, slots: seq<string>, id: string)
    ensures Swapped(live, doc, slots + [id]) ==
            if Found(live, doc, id) then Swapped(live, doc, slots)[id := doc[id]] else Swapped(live, doc, slots)
  {
  }

  /** The store object, with the page it works on. */
  class Store {
    var isHydrating: bool
    var dom: map<string, string>
    var events: seq<Event>
    var history: seq<Url>
    var requests: seq<Url>
    var reinitialised: seq<string>
    var warnings: seq<string>
    /** Whether `window.Alpine` is set, so that swapped slots get their bindings re-initialised. */
    const alpine: bool

    function State(): StoreState
      reads this
    {
      StoreState(isHydrating, dom, events, history, requests, reinitialised, warnings)
    }

    constructor (alpine: bool, page: map<string, string>)
      ensures this.alpine == alpine
      ensures State() == StoreState(false, page, [], [], [], [], [])
    {
      this.alpine := alpine;
      isHydrating := false;
      dom := page;
      events, history, requests := [], [], [];
      reinitialised, warnings := [], [];
    }

    /** `isLoading()`: reads the flag and changes nothing. */
    method IsLoading() returns (b: bool)
      ensures b == isHydrating
    {
      b := isHydrating;
    }

    /** The `forEach` callback for one slot: copy it when found in both documents, warn otherwise. */
    method SwapSlot(doc: map<string, string>, slotId: string)
      modifies this`dom, this`reinitialised, this`warnings
      ensures dom == if Found(old(dom), doc, slotId) then old(dom)[slotId := doc[slotId]] else old(dom)
      ensures reinitialised == old(reinitialised) + (if alpine && Found(old(dom), doc, slotId) then [slotId] else [])
      ensures warnings == old(warnings) + (if Found(old(dom), doc, slotId) then [] else [slotId])
    {
      if slotId in doc && slotId in dom {
        dom := dom[slotId := doc[slotId]];
        if alpine {
          reinitialised := reinitialised + [slotId];
        }
      } else {
        warnings := warnings + [slotId];
      }
    }

    /** The `forEach` over the slots, in order. */
    method SwapSlots(doc: map<string, string>, slots: seq<string>)
      modifies this`dom, this`reinitialised, this`warnings
      ensures dom == Swapped(old(dom), doc, slots)
      ensures reinitialised == old(reinitialised) + (if alpine then Matched(old(dom), doc, slots) else [])
      ensures warnings == old(warnings) + Missing(old(dom), doc, slots)
    {
      ghost var live := dom;
      ghost var reinit0, warnings0 := reinitialised, warnings;
      var i := 0;
      while i < |slots|
        invariant 0 <= i <= |slots|
        invariant SwapProgress(live, doc, alpine, reinit0, warnings0, slots[..i], dom, reinitialised, warnings)
      {
        var slotId := slots[i];
        ghost var dom0, reinit1, warnings1 := dom, reinitialised, warnings;
        SwapSlot(doc, slotId);
        SwapProgressStep(live, doc, alpine, reinit0, warnings0, slots[..i], slotId, dom0, reinit1, warnings1);
        PrefixSnoc(slots, i);
        i := i + 1;
      }
      assert slots[..i] == slots;
    }

    /** `fetch(url, sectionId, slots)`, with the server's answer given. */
    method Fetch(url: string, sectionId: string, slots: seq<string>, answer: ServerAnswer) returns (c: Completion)
      modifies this
      ensures Step(State(), c) == FetchSpec(old(State()), alpine, url, sectionId, slots, answer)
    {
      var detail := Detail(url, sectionId, slots);
      isHydrating := true;
      events := events + [Event(LoadingStart, detail, None, isHydrating)];

      var parsed := Parse(url);
      if parsed.None? {
        return Rejected(InvalidUrl);
      }
      var fetchUrl := parsed.value;
      fetchUrl := fetchUrl.(query := SetParam(fetchUrl.query, SectionParam, sectionId));

      // try
      requests := requests + [fetchUrl];
      ghost var sent := State();
      var error: Option<FetchError> := None;
      match answer {
        case TransportFailure =>
          error := Some(NetworkFailure);
        case Response(status, doc) =>
          if !Ok(status) {
            error := Some(HttpStatus(status));
          } else {
            SwapSlots(doc, slots);
            var historyUrl := parsed.value;
            historyUrl := historyUrl.(query := DeleteParam(historyUrl.query, SectionParam));
            history := history + [historyUrl];
            events := events + [Event(LoadingSuccess, detail, None, isHydrating)];
          }
      }
      // catch
      if error.Some? {
        events := events + [Event(LoadingError, detail, error, isHydrating)];
      }
      assert State() == Attempt(sent, alpine, parsed.value, detail, answer);
      // finally
      isHydrating := false;
      events := events + [Event(LoadingEnd, detail, None, isHydrating)];
      c := Resolved;
    }

    /** `fetchForm(form, sectionId, slots)`: a GET to the form's action with its fields as the query. */
    method FetchForm(action: string, fields: Query, sectionId: string, slots: seq<string>, answer: ServerAnswer)
      returns (c: Completion)
      modifies this
      ensures Step(State(), c) == FetchSpec(old(State()), alpine, FormUrl(action, fields), sectionId, slots, answer)
    {
      var url := action + "?" + Serialise(fields);
      c := Fetch(url, sectionId, slots, answer);
    }
  }

  /**
   * A form with a plain action and plain fields sends its fields, in order, with
   * `section_id` set among them; when no field is named `section_id` it comes last.
   */
  lemma FetchFormRequest(s: StoreState, alpine: bool, action: string, fields: Query, sectionId: string,
                         slots: seq<string>, answer: ServerAnswer)
    requires '?' !in action && '#' !in action && !EmptyHost(action)
    requires Parsable(fields) && NoHash(fields)
    ensures var r := FetchSpec(s, alpine, FormUrl(action, fields), sectionId, slots, answer).state;
            r.requests == s.requests + [Url(action, SetParam(fields, SectionParam, sectionId), None)] &&
            (CountName(fields, SectionParam) == 0 ==>
               r.requests[|s.requests|].query == fields + [(SectionParam, sectionId)])
  {
    ParseFormUrl(action, fields);
    FetchSent(s, alpine, FormUrl(action, fields), sectionId, slots, answer);
    SetParamOthers(fields, SectionParam, sectionId);
  }

  /** A search form `/search` with fields q=shoes and page=2 requests `/search?q=shoes&page=2&section_id=<id>`. */
  lemma SearchFormExample(s: StoreState, alpine: bool, sectionId: string, slots: seq<string>, answer: ServerAnswer)
    ensures var target := Url("/search", [("q", "shoes"), ("page", "2"), (SectionParam, sectionId)], None);
            FetchSpec(s, alpine, FormUrl("/search", [("q", "shoes"), ("page", "2")]), sectionId, slots, answer)
              .state.requests == s.requests + [target] &&
            ToString(target) == "/search?q=shoes&page=2&section_id=" + sectionId
  {
    var fields := [("q", "shoes"), ("page", "2")];
    SearchFormPlain(fields);
    FetchFormAppends(s, alpine, "/search", fields, sectionId, slots, answer);
    SearchFormText(fields + [(SectionParam, sectionId)], sectionId);
  }

  /** A plain form none of whose fields is `section_id` requests its fields with `section_id` last. */
  lemma FetchFormAppends(s: StoreState, alpine: bool, action: string, fields: Query, sectionId: string,
                         slots: seq<string>, answer: ServerAnswer)
    requires '?' !in action && '#' !in action && !EmptyHost(action)
    requires Parsable(fields) && NoHash(fields) && CountName(fields, SectionParam) == 0
    ensures FetchSpec(s, alpine, FormUrl(action, fields), sectionId, slots, answer).state.requests ==
            s.requests + [Url(action, fields + [(SectionParam, sectionId)], None)]
  {
    FetchFormRequest(s, alpine, action, fields, sectionId, slots, answer);
  }

  lemma SearchFormPlain(fields: Query)
    requires fields == [("q", "shoes"), ("page", "2")]
    ensures Parsable(fields) && NoHash(fields) && CountName(fields, SectionParam) == 0
    ensures '?' !in "/search" && '#' !in "/search" && !EmptyHost("/search")
  {
    assert "/search"[..7][0] == '/';
    assert |"q"| != |SectionParam| && |"page"| != |SectionParam|;
    assert fields[1..] == [("page", "2")] && fields[1..][1..] == [];
    assert CountName(fields[1..], SectionParam) == 0;
  }

  lemma SearchFormText(q: Query, sectionId: string)
    requires q == [("q", "shoes"), ("page", "2"), (SectionParam, sectionId)]
    ensures ToString(Url("/search", q, None)) == "/search?q=shoes&page=2&section_id=" + sectionId
  {
    var last := [(SectionParam, sectionId)];
    var rest := [("page", "2")] + last;
    assert q == [("q", "shoes")] + rest;
    SerialiseCons(("page", "2"), last);
    SerialiseCons(("q", "shoes"), rest);
    SearchPairs(sectionId);
    assert Serialise(q) == "q=shoes" + "&" + ("page=2" + "&" + ("section_id=" + sectionId));
    ToStringQuery("/search", q);
    SearchText(sectionId);
  }

  lemma SearchPairs(id: string)
    ensures EncodePair(("q", "shoes")) == "q=shoes" && EncodePair(("page", "2")) == "page=2"
    ensures Serialise([(SectionParam, id)]) == "section_id=" + id
  {
    assert "q" + "=" + "shoes" == "q=shoes";
    assert "page" + "=" + "2" == "page=2";
    assert SectionParam + "=" == "section_id=";
  }

  /** The serialisation of a list of two or more pairs: the first pair, `&`, and the rest. */
  lemma SerialiseCons(p: (string, string), rest: Query)
    requires rest != []
    ensures Serialise([p] + rest) == EncodePair(p) + "&" + Serialise(rest)
  {
    assert ([p] + rest)[1..] == rest;
  }

  lemma SearchText(id: string)
    ensures "/search" + "?" + ("q=shoes" + "&" + ("page=2" + "&" + ("section_id=" + id))) ==
            "/search?q=shoes&page=2&section_id=" + id
  {
    calc {
      "/search" + "?" + ("q=shoes" + "&" + ("page=2" + "&" + ("section_id=" + id)));
      ("/search" + "?" + "q=shoes") + ("&" + "page=2") + ("&" + "section_id=") + id;
      { assert "/search" + "?" + "q=shoes" == "/search?q=shoes";
        assert "&" + "page=2" == "&page=2";
        assert "&" + "section_id=" == "&section_id="; }
      "/search?q=shoes" + "&page=2" + "&section_id=" + id;
      { assert "/search?q=shoes" + "&page=2" == "/search?q=shoes&page=2"; }
      "/search?q=shoes&page=2" + "&section_id=" + id;
      { assert "/search?q=shoes&page=2" + "&section_id=" == "/search?q=shoes&page=2&section_id="; }
      "/search?q=shoes&page=2&section_id=" + id;
    }
  }

  /**
   * Paginating a collection: fetching `/collections/all?page=2` for section
   * `main-collection` into slot `ProductGridContainer`, with a server answer whose
   * slot holds `X`, leaves `X` in the live slot, `isLoading()` false, one
   * `loading-success` event and the address `/collections/all?page=2`.
   */
  lemma CollectionPageExample(s: StoreState, alpine: bool)
    requires "ProductGridContainer" in s.dom
    ensures var slots := ["ProductGridContainer"];
            var d := Detail("/collections/all?page=2", "main-collection", slots);
            var r := FetchSpec(s, alpine, "/collections/all?page=2", "main-collection", slots,
                               Response(200, map["ProductGridContainer" := "X"])).state;
            r.dom == s.dom["ProductGridContainer" := "X"] && !r.isHydrating &&
            r.events == s.events + [Event(LoadingStart, d, None, true), Event(LoadingSuccess, d, None, true),
                                    Event(LoadingEnd, d, None, false)] &&
            r.history == s.history + [Url("/collections/all", [("page", "2")], None)] &&
            ToString(Url("/collections/all", [("page", "2")], None)) == "/collections/all?page=2"
  {
    var u := Url("/collections/all", [("page", "2")], None);
    CollectionPageUrl();
    assert CountName(u.query, SectionParam) == 0 by {
      assert u.query[1..] == [];
      assert |"page"| != |SectionParam|;
    }
    FetchPage(s, alpine, u, "main-collection", "ProductGridContainer", "X");
  }

  /**
   * Refreshing one present slot from a well-formed URL without `section_id`:
   * the slot takes the fetched content, the trace is start, success, end, and
   * the URL itself is pushed.
   */
  lemma FetchPage(s: StoreState, alpine: bool, u: Url, sectionId: string, id: string, content: string)
    requires WellFormed(u) && CountName(u.query, SectionParam) == 0 && id in s.dom
    ensures var url := ToString(u);
            var d := Detail(url, sectionId, [id]);
            var r := FetchSpec(s, alpine, url, sectionId, [id], Response(200, map[id := content])).state;
            r.dom == s.dom[id := content] && !r.isHydrating &&
            r.events == s.events + [Event(LoadingStart, d, None, true), Event(LoadingSuccess, d, None, true),
                                    Event(LoadingEnd, d, None, false)] &&
            r.history == s.history + [u]
  {
    var url := ToString(u);
    var answer := Response(200, map[id := content]);
    ParseToString(u);
    DeleteParamUnchanged(u.query, SectionParam);
    assert HistoryEntry(u) == u;
    FetchSuccess(s, alpine, url, sectionId, [id], answer);
    FetchSwapped(s, alpine, url, sectionId, [id], answer);
    SwappedOne(s.dom, id, content);
  }

  /**
   * A successful call broadcasts start, success and end, with no error and
   * `isLoading()` true during the first two, and pushes the URL without `section_id`.
   */
  lemma FetchSuccess(s: StoreState, alpine: bool, url: string, sectionId: string, slots: seq<string>,
                     answer: ServerAnswer)
    requires Parse(url).Some? && Succeeds(answer)
    ensures var d := Detail(url, sectionId, slots);
            var r := FetchSpec(s, alpine, url, sectionId, slots, answer).state;
            !r.isHydrating &&
            r.events == s.events + [Event(LoadingStart, d, None, true), Event(LoadingSuccess, d, None, true),
                                    Event(LoadingEnd, d, None, false)] &&
            r.history == s.history + [HistoryEntry(Parse(url).value)]
  {
    var d := Detail(url, sectionId, slots);
    var u := Parse(url).value;
    var sent := Sent(s, d, u, sectionId);
    var tried := Attempt(sent, alpine, u, d, answer);
    AttemptSuccess(sent, alpine, u, d, answer);
    var r := FetchSpec(s, alpine, url, sectionId, slots, answer).state;
    assert r == Finished(tried, d);
    assert r.events == s.events + [Event(LoadingStart, d, None, true)] + [Event(LoadingSuccess, d, None, true)]
                      + [Event(LoadingEnd, d, None, false)];
    AppendThree(s.events, Event(LoadingStart, d, None, true), Event(LoadingSuccess, d, None, true),
                Event(LoadingEnd, d, None, false));
  }

  lemma AppendThree<T>(xs: seq<T>, a: T, b: T, c: T)
    ensures xs + [a] + [b] + [c] == xs + [a, b, c]
  {
  }

  /** The `try` block of a successful call adds `loading-success` and one history entry. */
  lemma AttemptSuccess(s: StoreState, alpine: bool, u: Url, d: Detail, answer: ServerAnswer)
    requires Succeeds(answer)
    ensures Attempt(s, alpine, u, d, answer).events == s.events + [Event(LoadingSuccess, d, None, s.isHydrating)]
    ensures Attempt(s, alpine, u, d, answer).history == s.history + [HistoryEntry(u)]
  {
  }

  /** A successful call leaves the live document with the listed slots swapped in. */
  lemma FetchSwapped(s: StoreState, alpine: bool, url: string, sectionId: string, slots: seq<string>,
                     answer: ServerAnswer)
    requires Parse(url).Some? && Succeeds(answer)
    ensures FetchSpec(s, alpine, url, sectionId, slots, answer).state.dom == Swapped(s.dom, answer.doc, slots)
  {
  }

  /** Swapping in a single slot present in the live document replaces exactly that slot. */
  lemma SwappedOne(live: map<string, string>, id: string, content: string)
    requires id in live
    ensures Swapped(live, map[id := content], [id]) == live[id := content]
  {
    var r := Swapped(live, map[id := content], [id]);
    assert r.Keys == live[id := content].Keys;
    forall k | k in r
      ensures r[k] == live[id := content][k]
    {
      assert k in [id] <==> k == id;
    }
  }

  lemma CollectionPageUrl()
    ensures WellFormed(Url("/collections/all", [("page", "2")], None))
    ensures ToString(Url("/collections/all", [("page", "2")], None)) == "/collections/all?page=2"
  {
    SingleQueryUrl("/collections/all", "page", "2");
  }

  /** A root-relative path with one plain pair is well formed, and serialises as `head?name=value`. */
  lemma SingleQueryUrl(head: string, name: string, value: string)
    requires |head| > 0 && head[0] == '/' && '?' !in head && '#' !in head
    requires '&' !in name && '=' !in name && '#' !in name && '&' !in value && '#' !in value
    ensures WellFormed(Url(head, [(name, value)], None))
    ensures ToString(Url(head, [(name, value)], None)) == head + "?" + name + "=" + value
  {
    RootRelative(head);
    SinglePlain(name, value);
    ToStringSingle(head, name, value);
  }

  /** The serialisation of a URL whose query is a single pair. */
  lemma ToStringSingle(head: string, name: string, value: string)
    ensures ToString(Url(head, [(name, value)], None)) == head + "?" + name + "=" + value
  {
  }

  /** A path relative to the root has no empty http or https host. */
  lemma RootRelative(head: string)
    requires |head| > 0 && head[0] == '/'
    ensures !EmptyHost(head)
  {
    if |head| >= 7 {
      assert head[..7][0] == '/';
    }
    if |head| >= 8 {
      assert head[..8][0] == '/';
    }
  }

  /** A single pair free of the delimiters survives serialising and parsing. */
  lemma SinglePlain(name: string, value: string)
    requires '&' !in name && '=' !in name && '#' !in name && '&' !in value && '#' !in value
    ensures Parsable([(name, value)]) && NoHash([(name, value)])
  {
  }
}
