/**
 The remote-classifier side of the relevance decision in contentScript.js (`decideWithLLM`) and
 the two-tier verdict of `markVideoElement` and `enforceWatchPageFocus`. The network request is
 replaced by its outcome, and the process-wide decision cache is a map passed in and returned.
 */
module Classifier {
  import opened Wrappers
  import opened Text
  import opened Relevance

  /**
   What one request to the remote model came back with. `Answer(text)`: the candidate's text, or
   `""` when the text field is absent or empty, or when the chain of optional fields stops at an
   empty string (such as `{"candidates": [""]}`); all of these are real decisions. `Malformed`: a
   body that is not JSON, or a chain that stops at a missing or non-string value, where reading
   the answer throws. `Failed`: a transport failure or a non-2xx status.
   */
  datatype Outcome = Answer(text: string) | Malformed | Failed

  /** Decisions by cache key; `None` records an abstention. */
  type Cache = map<string, Option<bool>>

  /** The cache key: the task and the title joined by a bar; role and strictness play no part. */
  function CacheKey(task: string, title: string): (k: string)
    ensures |k| == |task| + 1 + |title|
    ensures k[..|task|] == task && k[|task|] == '|' && k[|task| + 1..] == title
  {
    task + "|" + title
  }

  /** For one task, different titles never share a key. */
  lemma CacheKeyInjective(task: string, title1: string, title2: string)
    requires CacheKey(task, title1) == CacheKey(task, title2)
    ensures title1 == title2
  {
    assert title1 == CacheKey(task, title1)[|task| + 1..];
  }

  /** Across tasks, a bar inside the task or title can make two different pairs share a key. */
  lemma CacheKeyCollides()
    ensures CacheKey("a|b", "c") == CacheKey("a", "b|c")
  {
  }

  /** The decision rule on the lower-cased answer: "on-topic" present and "off-topic" absent. */
  predicate OnTopic(answer: string)
    ensures OnTopic(answer) ==> |answer| >= |"on-topic"|
  {
    var a := Lower(answer);
    Contains(a, "on-topic") && !Contains(a, "off-topic")
  }

  /**
   How an outcome becomes a decision: any failure becomes an abstention; an answer becomes a
   real decision, `false` when it is empty.
   */
  function Interpret(o: Outcome): (v: Option<bool>)
    ensures v.None? <==> !o.Answer?
    ensures o.Answer? ==> v == Some(OnTopic(o.text))
    ensures o == Answer("") ==> v == Some(false)
  {
    match o
    case Answer(text) => Some(OnTopic(text))
    case _ => None
  }

  /** The rule ignores letter case: an answer decides as its lower-case form does. */
  lemma OnTopicIgnoresCase(answer: string)
    ensures OnTopic(Lower(answer)) == OnTopic(answer)
  {
    LowerIdempotent(answer);
  }

  /** A lower-case answer with an "on-topic" and lacking a letter of "off-topic" is on topic. */
  lemma OnTopicByMarkers(answer: string, i: int, j: int)
    requires forall k :: 0 <= k < |answer| ==> !IsUpper(answer[k])
    requires OccursAt(answer, "on-topic", i)
    requires 0 <= j < 9 && "off-topic"[j] !in answer
    ensures OnTopic(answer)
  {
    LowerOfLowercase(answer);
    ContainsAt(answer, "on-topic", i);
    MissingCharNotContained(answer, "off-topic", j);
  }

  /** A lower-case answer holding "off-topic" is off topic, whatever else it says. */
  lemma OffTopicByMarker(answer: string, i: int)
    requires forall k :: 0 <= k < |answer| ==> !IsUpper(answer[k])
    requires OccursAt(answer, "off-topic", i)
    ensures !OnTopic(answer)
  {
    LowerOfLowercase(answer);
    ContainsAt(answer, "off-topic", i);
  }

  /** A capitalised answer decides as its lower-case form: here, for the title. */
  lemma OnTopicCapitalised(c: char, rest: string, i: int, j: int)
    requires forall k :: 0 <= k < |rest| ==> !IsUpper(rest[k])
    requires OccursAt(rest, "on-topic", i)
    requires 0 <= j < 9 && "off-topic"[j] !in rest && "off-topic"[j] != LowerChar(c)
    ensures OnTopic([c] + rest)
  {
    var lowered := [LowerChar(c)] + rest;
    LowerCapitalised(c, rest);
    assert OccursAt(lowered, "on-topic", i + 1) by {
      assert lowered[i + 1..i + 1 + 8] == rest[i..i + 8];
    }
    assert "off-topic"[j] !in lowered;
    OnTopicByMarkers(lowered, i + 1, j);
    OnTopicIgnoresCase([c] + rest);
  }

  /** An answer whose only marker is "on-topic", in any letter case, is a decision for the title. */
  lemma OnTopicExample(answer: string)
    requires answer == "This is on-topic."
    ensures Interpret(Answer(answer)) == Some(true)
  {
    assert answer == ['T'] + "his is on-topic.";
    OnTopicCapitalised('T', "his is on-topic.", 7, 1);
  }

  /** A truncated answer holding both markers is a decision against the title. */
  lemma BothMarkersExample()
    ensures Interpret(Answer("off-topic, not on-topic")) == Some(false)
  {
    OffTopicByMarker("off-topic, not on-topic", 0);
  }

  /** An empty answer, or one with neither marker, is a real "off topic" decision, not an abstention. */
  lemma NoMarkerIsOffTopic()
    ensures Interpret(Answer("")) == Some(false)
    ensures Interpret(Answer("maybe")) == Some(false)
  {
    assert Lower("") == "";
    NothingInEmpty("on-topic");
    LowerOfLowercase("maybe");
    MissingCharNotContained("maybe", "on-topic", 0);
  }

  /**
   `decideWithLLM`: a cache hit, abstentions included, is returned as stored and leaves the cache
   alone (no request is made); a miss interprets the outcome, and the decision is stored under
   the task-and-title key before it is returned, every other entry kept.
   */
  function DecideWithLLM(cache: Cache, task: string, title: string, outcome: Outcome): (res: (Option<bool>, Cache))
    ensures CacheKey(task, title) in cache ==> res == (cache[CacheKey(task, title)], cache)
    ensures CacheKey(task, title) !in cache ==> res.0 == Interpret(outcome)
    ensures CacheKey(task, title) in res.1 && res.1[CacheKey(task, title)] == res.0
    ensures res.1.Keys == cache.Keys + {CacheKey(task, title)}
    ensures forall k :: k in cache ==> res.1[k] == cache[k]
  {
    var key := CacheKey(task, title);
    if key in cache then (cache[key], cache)
    else
      var decision := Interpret(outcome);
      (decision, cache[key := decision])
  }

  /** A cached decision does not depend on what the network would have said. */
  lemma CacheHitIgnoresNetwork(cache: Cache, task: string, title: string, o1: Outcome, o2: Outcome)
    requires CacheKey(task, title) in cache
    ensures DecideWithLLM(cache, task, title, o1) == DecideWithLLM(cache, task, title, o2)
  {
  }

  /** Asking again, with any outcome, repeats the first answer: an abstention is never retried. */
  lemma AskingAgainRepeats(cache: Cache, task: string, title: string, o1: Outcome, o2: Outcome)
    ensures var (v, c) := DecideWithLLM(cache, task, title, o1);
            DecideWithLLM(c, task, title, o2) == (v, c)
  {
  }

  // ---------------------------------------------------------------------------
  // The two-tier verdict

  datatype Mode = Keywords | Llm

  /** The classification settings of one cycle: mode, credential and profile. */
  datatype Engine = Engine(mode: Mode, apiKey: string, profile: Profile)

  /** The remote classifier is used exactly when a credential is configured. */
  function ModeFor(apiKey: string): (m: Mode)
    ensures m == Llm <==> apiKey != ""
  {
    if apiKey != "" then Llm else Keywords
  }

  /** The remote classifier is consulted only in the remote mode and with a credential. */
  predicate UsesLlm(e: Engine) {
    e.mode == Llm && e.apiKey != ""
  }

  /** An engine set up from a credential consults the remote classifier exactly when there is one. */
  lemma LlmExactlyWithKey(apiKey: string, p: Profile)
    ensures UsesLlm(Engine(ModeFor(apiKey), apiKey, p)) <==> apiKey != ""
  {
  }

  /** A remote decision wins when there is one; an abstention falls back to the keyword score. */
  function Verdict(p: Profile, decision: Option<bool>, title: string): (v: bool)
    ensures decision.Some? ==> v == decision.value
    ensures decision.None? ==> v == KeywordRelevant(p, title)
  {
    match decision
    case Some(b) => b
    case None => KeywordRelevant(p, title)
  }

  /**
   The verdict for one title, as `markVideoElement` and `enforceWatchPageFocus` compute it;
   `network` gives the outcome a request for a title would have. Without the remote classifier
   it is the keyword verdict and the cache is untouched. With it: a cached decision is used, a
   cached abstention or a failed request falls back to the keywords, and an answer decides by
   the on-topic rule.
   */
  function Classify(e: Engine, title: string, cache: Cache, network: string -> Outcome): (res: (bool, Cache))
    ensures !UsesLlm(e) ==> res == (KeywordRelevant(e.profile, title), cache)
    ensures UsesLlm(e) && CacheKey(e.profile.task, title) in cache ==>
              var cached := cache[CacheKey(e.profile.task, title)];
              res == (if cached.Some? then cached.value else KeywordRelevant(e.profile, title), cache)
    ensures UsesLlm(e) && CacheKey(e.profile.task, title) !in cache ==>
              res.0 == (if network(title).Answer? then OnTopic(network(title).text) else KeywordRelevant(e.profile, title))
    ensures CacheGrows(cache, res.1, e.profile.task, network)
    ensures UsesLlm(e) ==> CacheKey(e.profile.task, title) in res.1
    ensures !UsesLlm(e) || CacheKey(e.profile.task, title) in cache ==> res.1 == cache
    // at most the decision for this title is added
    ensures res.1.Keys <= cache.Keys + {CacheKey(e.profile.task, title)}
  {
    if UsesLlm(e) then
      var (decision, cache') := DecideWithLLM(cache, e.profile.task, title, network(title));
      ClassifyStoresInterpretation(cache, e.profile.task, title, network);
      (Verdict(e.profile, decision, title), cache')
    else (KeywordRelevant(e.profile, title), cache)
  }

  /**
   `c1` is `c0` with some decisions added for `task`, each one the interpretation of the
   outcome the network gives for its title.
   */
  ghost predicate CacheGrows(c0: Cache, c1: Cache, task: string, network: string -> Outcome) {
    && (forall k :: k in c0 ==> k in c1 && c1[k] == c0[k])
    && (forall t :: CacheKey(task, t) in c1 && CacheKey(task, t) !in c0 ==> c1[CacheKey(task, t)] == Interpret(network(t)))
  }

  lemma ClassifyStoresInterpretation(cache: Cache, task: string, title: string, network: string -> Outcome)
    ensures CacheGrows(cache, DecideWithLLM(cache, task, title, network(title)).1, task, network)
  {
    var c1 := DecideWithLLM(cache, task, title, network(title)).1;
    forall t | CacheKey(task, t) in c1 && CacheKey(task, t) !in cache
      ensures c1[CacheKey(task, t)] == Interpret(network(t))
    {
      CacheKeyInjective(task, t, title);
    }
  }

  lemma {:induction false} CacheGrowsTransitive(c0: Cache, c1: Cache, c2: Cache, task: string, network: string -> Outcome)
    requires CacheGrows(c0, c1, task, network) && CacheGrows(c1, c2, task, network)
    ensures CacheGrows(c0, c2, task, network)
  {
    forall t | CacheKey(task, t) in c2 && CacheKey(task, t) !in c0
      ensures c2[CacheKey(task, t)] == Interpret(network(t))
    {
      if CacheKey(task, t) in c1 {
        assert c2[CacheKey(task, t)] == c1[CacheKey(task, t)];
      }
    }
  }

  /**
   Decisions stored since the cycle began change no verdict: classifying against the grown cache
   gives what classifying against the starting cache gives. So it does not matter that the
   extension looks every title up before any reply of the same cycle is stored.
   */
  lemma {:induction false} ClassifyStable(e: Engine, title: string, c0: Cache, c1: Cache, network: string -> Outcome)
    requires CacheGrows(c0, c1, e.profile.task, network)
    ensures Classify(e, title, c1, network).0 == Classify(e, title, c0, network).0
  {
    var key := CacheKey(e.profile.task, title);
    if UsesLlm(e) && key in c1 && key !in c0 {
      assert c1[key] == Interpret(network(title));
    }
  }
}
