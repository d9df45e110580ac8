/**
 One evaluation cycle of the content script (`runFocusFilter`, with `markVideoElement` and
 `enforceWatchPageFocus`) as a pure function: from the loaded state and credential, the titles
 found on the page, the page itself, the clock, the decision cache and the network's answers, to
 the actions the cycle takes. Rendering, storage and the DOM stay outside.
 */
module Session {
  import opened Wrappers
  import opened Text
  import opened Timer
  import opened State
  import opened Relevance
  import opened Classifier

  /** What happens to one listed video: left alone (no title), hidden, or highlighted. */
  datatype Mark = Untouched | Hidden | Highlighted

  /** What happens to the "stay on your goal" interstitial on the page. */
  datatype ModalAction = ShowModal | RemoveModal | KeepModal

  /**
   The filtering part of a cycle: `Suspended` during a break (every mark and the modal removed),
   `Disabled` when there is no usable profile (nothing touched), or the marks and modal action.
   */
  datatype Filtering = Suspended | Disabled | Applied(marks: seq<Mark>, modal: ModalAction)

  /** The page being viewed: its path and the title of the video playing on it ("" if none). */
  datatype Page = Page(path: string, watchTitle: string)

  /**
   Everything one cycle does: the state to write back (when the timer advanced), the timer
   record the indicator shows (`None`: indicator removed), the filtering, and the cache after it.
   */
  datatype CycleAction = CycleAction(
    writeBack: Option<FocusState>,
    indicator: Option<TimerRecord>,
    filtering: Filtering,
    cache: Cache)

  /** A judged video is always touched: highlighted when relevant, hidden otherwise. */
  function MarkFor(relevant: bool): (m: Mark)
    ensures m != Untouched
    ensures m == Highlighted <==> relevant
  {
    if relevant then Highlighted else Hidden
  }

  /** Every title's verdict in `c1` is its verdict in `c0`. */
  lemma {:induction false} ClassifyStableAll(e: Engine, titles: seq<string>, c0: Cache, c1: Cache, network: string -> Outcome)
    requires CacheGrows(c0, c1, e.profile.task, network)
    ensures forall i :: 0 <= i < |titles| ==> Classify(e, titles[i], c1, network).0 == Classify(e, titles[i], c0, network).0
  {
    forall i | 0 <= i < |titles|
      ensures Classify(e, titles[i], c1, network).0 == Classify(e, titles[i], c0, network).0
    {
      ClassifyStable(e, titles[i], c0, c1, network);
    }
  }

  /**
   `markVideoElement` over the listed videos in page order, threading the cache. A video without
   a title is left alone; every other one is hidden or highlighted by its verdict, and that
   verdict is the one it gets against the cache as it was when the cycle began.
   */
  function ClassifyTitles(e: Engine, titles: seq<string>, cache: Cache, network: string -> Outcome): (res: (seq<Mark>, Cache))
    ensures |res.0| == |titles|
    ensures forall i :: 0 <= i < |titles| ==> MarkedBy(e, titles[i], res.0[i], cache, network)
    ensures CacheGrows(cache, res.1, e.profile.task, network)
    ensures !UsesLlm(e) ==> res.1 == cache
    ensures UsesLlm(e) ==>
              forall i :: 0 <= i < |titles| && titles[i] != "" ==> CacheKey(e.profile.task, titles[i]) in res.1
    ensures (forall i :: 0 <= i < |titles| && titles[i] != "" ==> CacheKey(e.profile.task, titles[i]) in cache) ==>
              res.1 == cache
    // only the listed titles' decisions are added
    ensures res.1.Keys <= cache.Keys + ListedKeys(e.profile.task, titles)
  {
    if |titles| == 0 then ([], cache)
    else
      var first := if titles[0] == "" then (Untouched, cache)
                   else var (v, c) := Classify(e, titles[0], cache, network); (MarkFor(v), c);
      var rest := ClassifyTitles(e, titles[1..], first.1, network);
      ClassifyStableAll(e, titles[1..], cache, first.1, network);
      CacheGrowsTransitive(cache, first.1, rest.1, e.profile.task, network);
      MarksCons(e, titles, first.0, rest.0, cache, network);
      ListedKeysStep(e.profile.task, titles, cache, first.1, rest.1);
      StoredCons(e.profile.task, titles, cache, first.1, rest.1, UsesLlm(e));
      ([first.0] + rest.0, rest.1)
  }

  /**
   Deciding the first title and then the others stores every title's decision, and adds nothing
   when every decision was already stored.
   */
  lemma StoredCons(task: string, titles: seq<string>, c0: Cache, c1: Cache, c2: Cache, llm: bool)
    requires |titles| > 0
    requires c1.Keys <= c2.Keys
    requires llm && titles[0] != "" ==> CacheKey(task, titles[0]) in c1
    requires llm ==> forall i :: 0 <= i < |titles| - 1 && titles[1..][i] != "" ==> CacheKey(task, titles[1..][i]) in c2
    requires (titles[0] != "" ==> CacheKey(task, titles[0]) in c0) ==> c1 == c0
    requires (forall i :: 0 <= i < |titles| - 1 && titles[1..][i] != "" ==> CacheKey(task, titles[1..][i]) in c1) ==> c2 == c1
    ensures llm ==> forall i :: 0 <= i < |titles| && titles[i] != "" ==> CacheKey(task, titles[i]) in c2
    ensures (forall i :: 0 <= i < |titles| && titles[i] != "" ==> CacheKey(task, titles[i]) in c0) ==> c2 == c0
  {
    if llm {
      forall i | 0 < i < |titles| && titles[i] != ""
        ensures CacheKey(task, titles[i]) in c2
      {
        assert titles[i] == titles[1..][i - 1];
      }
    }
    if forall i :: 0 <= i < |titles| && titles[i] != "" ==> CacheKey(task, titles[i]) in c0 {
      forall i | 0 <= i < |titles| - 1 && titles[1..][i] != ""
        ensures CacheKey(task, titles[1..][i]) in c1
      {
        assert titles[1..][i] == titles[i + 1];
      }
    }
  }

  /** The cache keys of the listed videos that have a title: the only requests a pass over them can make. */
  function ListedKeys(task: string, titles: seq<string>): set<string> {
    set i | 0 <= i < |titles| && titles[i] != "" :: CacheKey(task, titles[i])
  }

  /** Keys added for the first title and then for the others are keys of the listed titles. */
  lemma ListedKeysStep(task: string, titles: seq<string>, c0: Cache, c1: Cache, c2: Cache)
    requires |titles| > 0
    requires c1.Keys <= c0.Keys + (if titles[0] == "" then {} else {CacheKey(task, titles[0])})
    requires c2.Keys <= c1.Keys + ListedKeys(task, titles[1..])
    ensures c2.Keys <= c0.Keys + ListedKeys(task, titles)
  {
    forall i | 0 <= i < |titles| - 1 && titles[1..][i] != ""
      ensures CacheKey(task, titles[1..][i]) in ListedKeys(task, titles)
    {
      assert titles[1..][i] == titles[i + 1];
    }
  }

  /** The cache key of the playing video, when the page is a watch page and the video has a title. */
  function WatchKeys(task: string, page: Page): set<string> {
    if StartsWith(page.path, "/watch") && page.watchTitle != "" then {CacheKey(task, page.watchTitle)} else {}
  }

  /** Keys from `a` added and then keys from `b`: keys from both. */
  lemma KeysAddUp(c0: Cache, c1: Cache, c2: Cache, a: set<string>, b: set<string>)
    requires c1.Keys <= c0.Keys + a && c2.Keys <= c1.Keys + b
    ensures c2.Keys <= c0.Keys + (a + b)
  {
  }

  /** The cache keys a classifying pass may add: the listed titles' and, on a watch page, the playing video's. */
  function JudgedKeys(task: string, titles: seq<string>, page: Page): set<string> {
    ListedKeys(task, titles) + WatchKeys(task, page)
  }

  /**
   `mark` is what `markVideoElement` does to a video titled `title`: nothing when it has no
   title, otherwise hide or highlight by its verdict against `cache`.
   */
  ghost predicate MarkedBy(e: Engine, title: string, mark: Mark, cache: Cache, network: string -> Outcome) {
    && (mark == Untouched <==> title == "")
    && (title != "" ==> mark == MarkFor(Classify(e, title, cache, network).0))
  }

  /** Marking the first title and then the others marks every title. */
  lemma MarksCons(e: Engine, titles: seq<string>, m0: Mark, ms: seq<Mark>, cache: Cache, network: string -> Outcome)
    requires |titles| > 0 && |ms| == |titles| - 1
    requires MarkedBy(e, titles[0], m0, cache, network)
    requires forall i :: 0 <= i < |ms| ==> MarkedBy(e, titles[1..][i], ms[i], cache, network)
    ensures forall i :: 0 <= i < |titles| ==> MarkedBy(e, titles[i], ([m0] + ms)[i], cache, network)
  {
    forall i | 0 < i < |titles|
      ensures MarkedBy(e, titles[i], ([m0] + ms)[i], cache, network)
    {
      assert titles[i] == titles[1..][i - 1] && ([m0] + ms)[i] == ms[i - 1];
    }
  }

  /**
   `enforceWatchPageFocus`: away from a watch page the modal is removed; on one without a title
   nothing changes; otherwise the modal shows exactly when the playing video's verdict (against
   the cache as given) is negative, and is removed when it is positive.
   */
  function WatchPageFocus(e: Engine, page: Page, cache: Cache, network: string -> Outcome): (res: (ModalAction, Cache))
    ensures !StartsWith(page.path, "/watch") ==> res == (RemoveModal, cache)
    ensures StartsWith(page.path, "/watch") && page.watchTitle == "" ==> res == (KeepModal, cache)
    ensures StartsWith(page.path, "/watch") && page.watchTitle != "" ==>
              res.0 == (if Classify(e, page.watchTitle, cache, network).0 then RemoveModal else ShowModal)
    ensures CacheGrows(cache, res.1, e.profile.task, network)
    ensures !UsesLlm(e) ==> res.1 == cache
    ensures UsesLlm(e) && StartsWith(page.path, "/watch") && page.watchTitle != "" ==>
              CacheKey(e.profile.task, page.watchTitle) in res.1
    ensures (StartsWith(page.path, "/watch") && page.watchTitle != "" ==> CacheKey(e.profile.task, page.watchTitle) in cache) ==>
              res.1 == cache
    // only the playing video's decision is added
    ensures res.1.Keys <= cache.Keys + WatchKeys(e.profile.task, page)
  {
    if !StartsWith(page.path, "/watch") then (RemoveModal, cache)
    else if page.watchTitle == "" then (KeepModal, cache)
    else
      var (v, c) := Classify(e, page.watchTitle, cache, network);
      (if v then RemoveModal else ShowModal, c)
  }

  /**
   What a classifying pass does, judged against the cache as the cycle found it: the listed
   videos marked by their verdicts, the modal set by the playing video's, and the decisions
   stored as `DecisionsStored` says.
   */
  ghost predicate FilterPass(e: Engine, titles: seq<string>, page: Page, cache: Cache, network: string -> Outcome,
                             f: Filtering, c: Cache) {
    && f.Applied?
    && MarksFollow(e, titles, cache, network, f.marks)
    && ModalFollows(e, page, cache, network, f.modal)
    && DecisionsStored(e, titles, page, cache, c)
  }

  /** One mark per listed video: untouched exactly when it has no title, otherwise highlighted exactly when relevant. */
  ghost predicate MarksFollow(e: Engine, titles: seq<string>, cache: Cache, network: string -> Outcome, marks: seq<Mark>) {
    && |marks| == |titles|
    && (forall i :: 0 <= i < |titles| ==> (marks[i] == Untouched <==> titles[i] == ""))
    && (forall i :: 0 <= i < |titles| && titles[i] != "" ==>
          (marks[i] == Highlighted <==> Classify(e, titles[i], cache, network).0))
  }

  /** The modal is removed away from a watch page, kept on one without a title, and otherwise removed or shown by the playing video's verdict. */
  ghost predicate ModalFollows(e: Engine, page: Page, cache: Cache, network: string -> Outcome, modal: ModalAction) {
    modal == (if !StartsWith(page.path, "/watch") then RemoveModal
              else if page.watchTitle == "" then KeepModal
              else if Classify(e, page.watchTitle, cache, network).0 then RemoveModal
              else ShowModal)
  }

  /**
   With the remote classifier the decision for every judged title is in `c`; whatever the
   mode, `c` has no key beyond those of `cache` and of the judged titles.
   */
  predicate DecisionsStored(e: Engine, titles: seq<string>, page: Page, cache: Cache, c: Cache) {
    && (UsesLlm(e) ==>
          && (forall i :: 0 <= i < |titles| && titles[i] != "" ==> CacheKey(e.profile.task, titles[i]) in c)
          && (StartsWith(page.path, "/watch") && page.watchTitle != "" ==> CacheKey(e.profile.task, page.watchTitle) in c))
    && c.Keys <= cache.Keys + JudgedKeys(e.profile.task, titles, page)
  }

  /**
   The classifying part of a cycle: every listed video, then the playing one, each verdict taken
   against the cache as the cycle found it.
   */
  function ApplyFilter(e: Engine, titles: seq<string>, page: Page, cache: Cache, network: string -> Outcome): (res: (Filtering, Cache))
    ensures res.0.Applied?
    ensures |res.0.marks| == |titles|
    ensures forall i :: 0 <= i < |titles| ==> (res.0.marks[i] == Untouched <==> titles[i] == "")
    ensures forall i :: 0 <= i < |titles| && titles[i] != "" ==>
              res.0.marks[i] == MarkFor(Classify(e, titles[i], cache, network).0)
    ensures res.0.modal == (if !StartsWith(page.path, "/watch") then RemoveModal
                            else if page.watchTitle == "" then KeepModal
                            else if Classify(e, page.watchTitle, cache, network).0 then RemoveModal
                            else ShowModal)
    ensures CacheGrows(cache, res.1, e.profile.task, network)
    ensures !UsesLlm(e) ==> res.1 == cache
    // with the remote classifier every judged title's decision is stored
    ensures UsesLlm(e) ==>
              && (forall i :: 0 <= i < |titles| && titles[i] != "" ==> CacheKey(e.profile.task, titles[i]) in res.1)
              && (StartsWith(page.path, "/watch") && page.watchTitle != "" ==> CacheKey(e.profile.task, page.watchTitle) in res.1)
    ensures FilterPass(e, titles, page, cache, network, res.0, res.1)
  {
    var (marks, c1) := ClassifyTitles(e, titles, cache, network);
    var (modal, c2) := WatchPageFocus(e, page, c1, network);
    ClassifyStable(e, page.watchTitle, cache, c1, network);
    CacheGrowsTransitive(cache, c1, c2, e.profile.task, network);
    PassOfParts(e, titles, page, cache, network, marks, c1, modal, c2);
    assert FilterPass(e, titles, page, cache, network, Applied(marks, modal), c2);
    (Applied(marks, modal), c2)
  }

  /** Marks by the verdicts, the modal by the playing video's verdict and keys stored and bounded make a classifying pass. */
  lemma PassOfParts(e: Engine, titles: seq<string>, page: Page, cache: Cache, network: string -> Outcome,
                    marks: seq<Mark>, c1: Cache, modal: ModalAction, c2: Cache)
    requires |marks| == |titles|
    requires forall i :: 0 <= i < |titles| ==> MarkedBy(e, titles[i], marks[i], cache, network)
    requires ModalFollows(e, page, cache, network, modal)
    requires UsesLlm(e) ==>
               && (forall i :: 0 <= i < |titles| && titles[i] != "" ==> CacheKey(e.profile.task, titles[i]) in c1)
               && (StartsWith(page.path, "/watch") && page.watchTitle != "" ==> CacheKey(e.profile.task, page.watchTitle) in c2)
    requires c1.Keys <= c2.Keys
    requires c1.Keys <= cache.Keys + ListedKeys(e.profile.task, titles)
    requires c2.Keys <= c1.Keys + WatchKeys(e.profile.task, page)
    ensures FilterPass(e, titles, page, cache, network, Applied(marks, modal), c2)
  {
    KeysAddUp(cache, c1, c2, ListedKeys(e.profile.task, titles), WatchKeys(e.profile.task, page));
    MarksByVerdict(e, titles, marks, cache, network);
  }

  /** Marks made by the verdicts follow the verdicts. */
  lemma MarksByVerdict(e: Engine, titles: seq<string>, marks: seq<Mark>, cache: Cache, network: string -> Outcome)
    requires |marks| == |titles|
    requires forall i :: 0 <= i < |titles| ==> MarkedBy(e, titles[i], marks[i], cache, network)
    ensures MarksFollow(e, titles, cache, network, marks)
  {
  }

  /** Two markings of the same titles by verdicts that agree are the same marking. */
  lemma MarksAgree(e: Engine, titles: seq<string>, m0: seq<Mark>, m1: seq<Mark>, c0: Cache, c1: Cache,
                   network: string -> Outcome)
    requires |m0| == |titles| && |m1| == |titles|
    requires forall i :: 0 <= i < |titles| ==> MarkedBy(e, titles[i], m0[i], c0, network)
    requires forall i :: 0 <= i < |titles| ==> MarkedBy(e, titles[i], m1[i], c1, network)
    requires forall i :: 0 <= i < |titles| ==> Classify(e, titles[i], c1, network).0 == Classify(e, titles[i], c0, network).0
    ensures m0 == m1
  {
    forall i | 0 <= i < |titles|
      ensures m0[i] == m1[i]
    {
      assert MarkedBy(e, titles[i], m0[i], c0, network) && MarkedBy(e, titles[i], m1[i], c1, network);
    }
  }

  /** Classifying again against the cache a pass left repeats the pass and adds nothing. */
  lemma {:induction false} ApplyFilterRepeats(e: Engine, titles: seq<string>, page: Page, cache: Cache, network: string -> Outcome)
    ensures var (f, c) := ApplyFilter(e, titles, page, cache, network);
            ApplyFilter(e, titles, page, c, network) == (f, c)
  {
    var (f, c) := ApplyFilter(e, titles, page, cache, network);
    var (f', c') := ApplyFilter(e, titles, page, c, network);
    ClassifyStableAll(e, titles, cache, c, network);
    ClassifyStable(e, page.watchTitle, cache, c, network);
    var (marks, c1) := ClassifyTitles(e, titles, cache, network);
    var (modal, c2) := WatchPageFocus(e, page, c1, network);
    assert c == c2;
    var (marks', c1') := ClassifyTitles(e, titles, c, network);
    MarksAgree(e, titles, marks, marks', cache, c, network);
    assert c1' == c;
    var (modal', c2') := WatchPageFocus(e, page, c1', network);
    assert c2' == c;
  }

  /**
   `runFocusFilter`. With the timer active, the stored record is advanced; an advanced record is
   written back, and a break suspends filtering. Otherwise, with no profile or no keywords,
   filtering is disabled. Otherwise every title and the playing video are classified, with the
   remote classifier exactly when a credential is configured; every verdict is taken against
   the cache as the cycle found it.
   */
  function RunFocusFilter(state: Option<FocusState>, apiKey: string, titles: seq<string>, page: Page,
                          now: int, cache: Cache, network: string -> Outcome): (a: CycleAction)
    // timer write-back
    ensures a.writeBack.Some? <==>
              TimerActive(state) && Advance(state.value.timerState.value, now) != state.value.timerState.value
    ensures a.writeBack.Some? ==>
              a.writeBack.value == state.value.(timerState := Some(Advance(state.value.timerState.value, now)))
    // break suspends filtering
    ensures a.filtering == Suspended <==>
              TimerActive(state) && Advance(state.value.timerState.value, now).phase == Break
    // no usable profile disables filtering
    ensures a.filtering == Disabled <==>
              a.filtering != Suspended &&
              (BuildKeywordProfile(state).None? || BuildKeywordProfile(state).value.keywords == [])
    // the indicator shows the advanced timer unless the timer is off or filtering is disabled
    ensures a.indicator.Some? <==> TimerActive(state) && a.filtering != Disabled
    ensures a.indicator.Some? ==>
              a.indicator.value == Advance(Advance(state.value.timerState.value, now), now)
    // the verdicts, the modal and the stored decisions, with the remote classifier exactly when
    // a credential is configured
    ensures a.filtering.Applied? ==>
              FilterPass(Engine(ModeFor(apiKey), apiKey, BuildKeywordProfile(state).value),
                         titles, page, cache, network, a.filtering, a.cache)
    // the cache only grows, and only by interpreted answers; without a credential it is untouched
    ensures CacheGrows(cache, a.cache, if state.Some? then state.value.task else "", network)
    ensures apiKey == "" ==> a.cache == cache
    // a suspended or disabled cycle classifies nothing, so it sends no request
    ensures !a.filtering.Applied? ==> a.cache == cache
  {
    var timerOn := TimerActive(state);
    var current := if timerOn then Some(Advance(state.value.timerState.value, now)) else None;
    var writeBack := if timerOn && Expired(state.value.timerState.value, now)
                     then Some(state.value.(timerState := current)) else None;
    var indicator := if timerOn then Some(Advance(current.value, now)) else None;
    if timerOn && current.value.phase == Break then
      CycleAction(writeBack, indicator, Suspended, cache)
    else
      var profile := BuildKeywordProfile(state);
      if profile.None? || |profile.value.keywords| == 0 then
        CycleAction(writeBack, None, Disabled, cache)
      else
        var e := Engine(ModeFor(apiKey), apiKey, profile.value);
        var (filtering, cache') := ApplyFilter(e, titles, page, cache, network);
        CycleAction(writeBack, indicator, filtering, cache')
  }

  /** Without a credential a cycle never consults the network: its answers change nothing. */
  lemma KeywordModeIgnoresNetwork(state: Option<FocusState>, titles: seq<string>, page: Page, now: int,
                                  cache: Cache, network1: string -> Outcome, network2: string -> Outcome)
    ensures RunFocusFilter(state, "", titles, page, now, cache, network1) ==
            RunFocusFilter(state, "", titles, page, now, cache, network2)
  {
    var a1 := RunFocusFilter(state, "", titles, page, now, cache, network1);
    var a2 := RunFocusFilter(state, "", titles, page, now, cache, network2);
    var profile := BuildKeywordProfile(state);
    if a1.filtering.Applied? {
      var e := Engine(ModeFor(""), "", profile.value);
      ApplyFilterIgnoresNetwork(e, titles, page, cache, network1, network2);
      assert a1.filtering == ApplyFilter(e, titles, page, cache, network1).0;
      assert a2.filtering == ApplyFilter(e, titles, page, cache, network2).0;
    }
  }

  /** Without the remote classifier, the classifying part of a cycle ignores the network. */
  lemma ApplyFilterIgnoresNetwork(e: Engine, titles: seq<string>, page: Page, cache: Cache,
                                  network1: string -> Outcome, network2: string -> Outcome)
    requires !UsesLlm(e)
    ensures ApplyFilter(e, titles, page, cache, network1) == ApplyFilter(e, titles, page, cache, network2)
  {
    var (f1, c1) := ApplyFilter(e, titles, page, cache, network1);
    var (f2, c2) := ApplyFilter(e, titles, page, cache, network2);
    assert f1.marks == f2.marks by {
      forall i | 0 <= i < |titles|
        ensures f1.marks[i] == f2.marks[i]
      {
      }
    }
  }

  /**
   Re-running a cycle at the same instant, on the state it wrote back and the cache it left,
   takes the same actions and writes nothing more, provided both phase lengths are positive:
   repeated triggers are harmless.
   */
  lemma {:induction false} RerunIsStable(state: Option<FocusState>, apiKey: string, titles: seq<string>, page: Page,
                                         now: int, cache: Cache, network: string -> Outcome)
    requires TimerActive(state) ==>
               state.value.timerState.value.focusDuration > 0 && state.value.timerState.value.breakDuration > 0
    ensures var a1 := RunFocusFilter(state, apiKey, titles, page, now, cache, network);
            var state2 := if a1.writeBack.Some? then a1.writeBack else state;
            var a2 := RunFocusFilter(state2, apiKey, titles, page, now, a1.cache, network);
            a2.writeBack.None? && a2.indicator == a1.indicator && a2.filtering == a1.filtering && a2.cache == a1.cache
  {
    var a1 := RunFocusFilter(state, apiKey, titles, page, now, cache, network);
    var state2 := if a1.writeBack.Some? then a1.writeBack else state;
    var profile := BuildKeywordProfile(state);
    assert BuildKeywordProfile(state2) == profile;
    if TimerActive(state) {
      AdvanceSettles(state.value.timerState.value, now);
      assert TimerActive(state2) && Advance(state2.value.timerState.value, now) == state2.value.timerState.value;
    }
    var a2 := RunFocusFilter(state2, apiKey, titles, page, now, a1.cache, network);
    assert a2.writeBack.None?;
    if a1.filtering.Applied? {
      var e := Engine(ModeFor(apiKey), apiKey, profile.value);
      ApplyFilterRepeats(e, titles, page, cache, network);
      assert (a1.filtering, a1.cache) == ApplyFilter(e, titles, page, cache, network);
      assert (a2.filtering, a2.cache) == ApplyFilter(e, titles, page, a1.cache, network);
    }
  }

  /** With positive phase lengths the indicator shows the advanced record itself. */
  lemma IndicatorShowsAdvancedTimer(state: Option<FocusState>, apiKey: string, titles: seq<string>, page: Page,
                                    now: int, cache: Cache, network: string -> Outcome)
    requires TimerActive(state)
    requires state.value.timerState.value.focusDuration > 0 && state.value.timerState.value.breakDuration > 0
    ensures var a := RunFocusFilter(state, apiKey, titles, page, now, cache, network);
            a.indicator.Some? ==> a.indicator.value == Advance(state.value.timerState.value, now)
  {
    AdvanceSettles(state.value.timerState.value, now);
  }

  /** With the timer disabled or cleared, filtering is never suspended and nothing is written. */
  lemma TimerOffNeverSuspends(state: Option<FocusState>, apiKey: string, titles: seq<string>, page: Page,
                              now: int, cache: Cache, network: string -> Outcome)
    requires !TimerActive(state)
    ensures var a := RunFocusFilter(state, apiKey, titles, page, now, cache, network);
            a.filtering != Suspended && a.writeBack.None? && a.indicator.None?
  {
  }
}
