/**
 The keyword side of the relevance decision in contentScript.js: building the keyword profile
 from the stored task and role, scoring a title against it, and the strictness threshold.
 */
module Relevance {
  import opened Wrappers
  import opened Text
  import opened State

  /** `buildKeywordProfile`'s result. */
  datatype Profile = Profile(keywords: seq<string>, strictness: string, task: string, role: string)

  /** The bonus search terms each known role adds; any other role adds none. */
  function RoleExtras(role: string): (extras: seq<string>)
    ensures forall e :: e in extras ==> |e| > 2
    ensures role !in {"student", "programmer", "teacher", "researcher"} ==> extras == []
  {
    match role
    case "student" => ["lecture", "tutorial", "study", "exam", "practice"]
    case "programmer" => ["tutorial", "course", "walkthrough", "coding", "programming"]
    case "teacher" => ["lesson", "classroom", "explained"]
    case "researcher" => ["talk", "conference", "seminar", "paper"]
    case _ => []
  }

  predicate NoDuplicates(xs: seq<string>) {
    forall i, j :: 0 <= i < j < |xs| ==> xs[i] != xs[j]
  }

  /** `t` is a lower-cased whitespace-separated word of the task, longer than two characters. */
  ghost predicate IsTaskTerm(task: string, t: string) {
    |t| > 2 && exists w :: w in Words(task) && Lower(w) == t
  }

  /** Lower-cases every word and keeps those longer than two characters, in order. */
  function LongLowered(ws: seq<string>): (ts: seq<string>)
    ensures forall t :: t in ts <==> |t| > 2 && exists w :: w in ws && Lower(w) == t
  {
    if |ws| == 0 then []
    else
      var rest := LongLowered(ws[1..]);
      assert forall w :: w in ws <==> w == ws[0] || w in ws[1..];
      var l := Lower(ws[0]);
      if |l| > 2 then [l] + rest else rest
  }

  /** The task's terms: its whitespace-separated words, lower-cased, those longer than two characters kept in order. */
  function TaskTerms(task: string): (ts: seq<string>)
    ensures forall t :: t in ts <==> IsTaskTerm(task, t)
    ensures forall t :: t in ts ==> |t| > 2
  {
    LongLowered(Words(task))
  }

  /** Keeps the first occurrence of every element not already in `seen`. */
  function DedupAfter(xs: seq<string>, seen: set<string>): (ys: seq<string>)
    ensures NoDuplicates(ys)
    ensures forall x :: x in ys <==> x in xs && x !in seen
  {
    if |xs| == 0 then []
    else if xs[0] in seen then DedupAfter(xs[1..], seen)
    else
      var rest := DedupAfter(xs[1..], seen + {xs[0]});
      assert forall x :: x in xs <==> x == xs[0] || x in xs[1..];
      [xs[0]] + rest
  }

  /** `Array.from(new Set(xs))`: the distinct elements of `xs`, each once. */
  function Dedup(xs: seq<string>): (ys: seq<string>)
    ensures NoDuplicates(ys)
    ensures forall x :: x in ys <==> x in xs
  {
    DedupAfter(xs, {})
  }

  /** Deduplicating a concatenation keeps exactly the elements of both parts, so their lengths too. */
  lemma DedupConcat(a: seq<string>, b: seq<string>)
    requires forall x :: x in a ==> |x| > 2
    requires forall x :: x in b ==> |x| > 2
    ensures forall k :: k in Dedup(a + b) <==> k in a || k in b
    ensures forall i :: 0 <= i < |Dedup(a + b)| ==> |Dedup(a + b)[i]| > 2
  {
    var ks := Dedup(a + b);
    assert forall k :: k in a + b <==> k in a || k in b;
    assert forall i :: 0 <= i < |ks| ==> ks[i] in a + b;
  }

  /** The profile's keywords: the distinct task terms and role extras, each longer than two characters. */
  function Keywords(task: string, role: string): (ks: seq<string>)
    ensures NoDuplicates(ks)
    ensures forall k :: k in ks <==> IsTaskTerm(task, k) || k in RoleExtras(role)
    ensures forall i :: 0 <= i < |ks| ==> |ks[i]| > 2
  {
    DedupConcat(TaskTerms(task), RoleExtras(role));
    Dedup(TaskTerms(task) + RoleExtras(role))
  }

  /**
   `buildKeywordProfile`: no profile exactly when there is no state or its task is empty;
   otherwise the keywords are the distinct task terms and role extras, nothing else, each
   longer than two characters, and the strictness defaults to "medium".
   */
  function BuildKeywordProfile(state: Option<FocusState>): (p: Option<Profile>)
    ensures p.None? <==> state.None? || state.value.task == ""
    ensures p.Some? ==> p.value.task == state.value.task && p.value.role == state.value.role
    ensures p.Some? ==> p.value.strictness == if state.value.strictness == "" then "medium" else state.value.strictness
    ensures p.Some? ==> NoDuplicates(p.value.keywords)
    ensures p.Some? ==> forall k :: k in p.value.keywords <==>
                          IsTaskTerm(state.value.task, k) || k in RoleExtras(state.value.role)
    ensures p.Some? ==> forall i :: 0 <= i < |p.value.keywords| ==> |p.value.keywords[i]| > 2
  {
    match state
    case None => None
    case Some(s) =>
      if s.task == "" then None
      else Some(Profile(Keywords(s.task, s.role), if s.strictness == "" then "medium" else s.strictness, s.task, s.role))
  }

  // ---------------------------------------------------------------------------
  // Scoring

  /** 1 when the keyword is non-empty and occurs in `target`, else 0. */
  function Hit(keyword: string, target: string): nat {
    if keyword != "" && Contains(target, keyword) then 1 else 0
  }

  /** How many of the keywords (empty ones skipped) occur in `target`. */
  function CountMatches(keywords: seq<string>, target: string): (n: nat)
    ensures n <= |keywords|
  {
    if |keywords| == 0 then 0 else Hit(keywords[0], target) + CountMatches(keywords[1..], target)
  }

  /**
   `relevanceScore`: the number of keywords occurring in the lower-cased text; zero for an empty
   text or an empty keyword list, and never more than the number of keywords.
   */
  function Score(p: Profile, text: string): (n: nat)
    ensures n <= |p.keywords|
    ensures text == "" || p.keywords == [] ==> n == 0
  {
    if text == "" then 0 else CountMatches(p.keywords, Lower(text))
  }

  /** The set of distinct keywords found in `target`. */
  ghost function MatchedKeywords(keywords: seq<string>, target: string): set<string> {
    set k | k in keywords && k != "" && Contains(target, k)
  }

  /** Over a duplicate-free keyword list the count is the size of the set of matched keywords. */
  lemma {:induction false} CountIsMatchedSetSize(keywords: seq<string>, target: string)
    requires NoDuplicates(keywords)
    ensures CountMatches(keywords, target) == |MatchedKeywords(keywords, target)|
  {
    if |keywords| == 0 {
      assert MatchedKeywords(keywords, target) == {};
    } else {
      TailNoDuplicates(keywords);
      CountIsMatchedSetSize(keywords[1..], target);
      MatchedCons(keywords, target);
    }
  }

  /** The tail of a duplicate-free list is duplicate-free and misses the head. */
  lemma TailNoDuplicates(xs: seq<string>)
    requires |xs| > 0 && NoDuplicates(xs)
    ensures NoDuplicates(xs[1..]) && xs[0] !in xs[1..]
  {
    var rest := xs[1..];
    forall i, j | 0 <= i < j < |rest| ensures rest[i] != rest[j] {
      assert rest[i] == xs[i + 1] && rest[j] == xs[j + 1];
    }
    forall j | 0 <= j < |rest| ensures rest[j] != xs[0] {
      assert rest[j] == xs[j + 1];
    }
  }

  /** The matched set of a list is the head's match, if any, added to the tail's matched set. */
  lemma MatchedCons(keywords: seq<string>, target: string)
    requires |keywords| > 0
    ensures MatchedKeywords(keywords, target) ==
              (if Hit(keywords[0], target) == 1 then {keywords[0]} else {}) + MatchedKeywords(keywords[1..], target)
  {
    assert forall x :: x in keywords <==> x == keywords[0] || x in keywords[1..];
  }

  /**
   The loop of `relevanceScore`, as written: walks the keyword list, skips empty entries and
   counts those the lower-cased text includes. It computes the score, which over a
   duplicate-free list is the number of distinct keywords found.
   */
  method RelevanceScore(p: Profile, text: string) returns (score: nat)
    ensures score == Score(p, text)
    ensures NoDuplicates(p.keywords) ==> score == |MatchedKeywords(p.keywords, Lower(text))|
  {
    var target := Lower(text);
    if text == "" {
      score := 0;
      assert target == "";
      if NoDuplicates(p.keywords) {
        forall k | k in p.keywords && k != ""
          ensures !Contains(target, k)
        {
          NothingInEmpty(k);
        }
        assert MatchedKeywords(p.keywords, target) == {};
      }
      return;
    }
    score := 0;
    var i := 0;
    while i < |p.keywords|
      invariant 0 <= i <= |p.keywords|
      invariant score + CountMatches(p.keywords[i..], target) == CountMatches(p.keywords, target)
    {
      var kw := p.keywords[i];
      assert p.keywords[i..][1..] == p.keywords[i + 1..];
      if kw != "" && Contains(target, kw) {
        score := score + 1;
      }
      i := i + 1;
    }
    assert p.keywords[i..] == [];
    if NoDuplicates(p.keywords) {
      CountIsMatchedSetSize(p.keywords, target);
    }
  }

  // ---------------------------------------------------------------------------
  // Threshold

  /** `getThreshold`: "high" needs two matches, "low" half of one, everything else one. */
  function Threshold(strictness: string): (t: real)
    ensures 0.5 <= t <= 2.0
  {
    match strictness
    case "high" => 2.0
    case "low" => 0.5
    case _ => 1.0
  }

  /** Keyword-mode relevance: the score reaches the strictness threshold. */
  predicate KeywordRelevant(p: Profile, text: string)
    ensures KeywordRelevant(p, text) ==> text != "" && p.keywords != [] && Score(p, text) >= 1
    ensures p.strictness == "high" ==> (KeywordRelevant(p, text) <==> Score(p, text) >= 2)
  {
    Score(p, text) as real >= Threshold(p.strictness)
  }

  /** The threshold table, with every unrecognised strictness treated like "medium". */
  lemma ThresholdTable(s: string)
    ensures Threshold("high") == 2.0 && Threshold("medium") == 1.0 && Threshold("low") == 0.5
    ensures s != "high" && s != "low" ==> Threshold(s) == Threshold("medium")
  {
  }

  /** An empty keyword list is never relevant, whatever the strictness. */
  lemma NoKeywordsNeverRelevant(p: Profile, text: string)
    requires p.keywords == []
    ensures !KeywordRelevant(p, text)
  {
  }

  /** On whole-number scores "low" and "medium" decide alike: one match is needed either way. */
  lemma LowAgreesWithMedium(p: Profile, text: string)
    ensures KeywordRelevant(p.(strictness := "low"), text) <==> KeywordRelevant(p.(strictness := "medium"), text)
    ensures KeywordRelevant(p.(strictness := "low"), text) <==> Score(p, text) >= 1
  {
  }

  /** A title relevant under "high" is relevant under every strictness. */
  lemma HighIsStrictest(p: Profile, text: string)
    ensures KeywordRelevant(p.(strictness := "high"), text) ==> KeywordRelevant(p, text)
  {
  }

  /** When every keyword occurs in the text, every keyword is counted. */
  lemma {:induction false} AllPresentCountsAll(keywords: seq<string>, target: string)
    requires forall i :: 0 <= i < |keywords| ==> keywords[i] != "" && Contains(target, keywords[i])
    ensures CountMatches(keywords, target) == |keywords|
  {
    if |keywords| > 0 {
      AllPresentCountsAll(keywords[1..], target);
    }
  }

  /**
   A text containing every keyword is relevant, provided the list is not empty and, under
   "high", holds at least two keywords.
   */
  lemma AllKeywordsPresent(p: Profile, text: string)
    requires |p.keywords| >= 1
    requires p.strictness == "high" ==> |p.keywords| >= 2
    requires forall i :: 0 <= i < |p.keywords| ==> p.keywords[i] != "" && Contains(Lower(text), p.keywords[i])
    ensures KeywordRelevant(p, text)
  {
    if text == "" {
      NothingInEmpty(p.keywords[0]);
    }
    AllPresentCountsAll(p.keywords, Lower(text));
  }

  lemma {:induction false} OneHitCounts(keywords: seq<string>, target: string, k: string)
    requires k in keywords && k != "" && Contains(target, k)
    ensures CountMatches(keywords, target) >= 1
  {
    if keywords[0] != k {
      OneHitCounts(keywords[1..], target, k);
    }
  }

  lemma {:induction false} NoHitCountsZero(keywords: seq<string>, target: string)
    requires forall i :: 0 <= i < |keywords| ==> !Contains(target, keywords[i])
    ensures CountMatches(keywords, target) == 0
  {
    if |keywords| > 0 {
      NoHitCountsZero(keywords[1..], target);
    }
  }

  /** Below "high", one keyword occurring in the text is enough. */
  lemma OneKeywordSuffices(p: Profile, text: string, k: string)
    requires p.strictness != "high"
    requires k in p.keywords && k != "" && Contains(Lower(text), k)
    ensures KeywordRelevant(p, text)
  {
    if text == "" {
      NothingInEmpty(k);
    }
    OneHitCounts(p.keywords, Lower(text), k);
  }

  /** A text in which no keyword occurs is never relevant. */
  lemma NoKeywordNeverRelevant(p: Profile, text: string)
    requires forall k :: k in p.keywords ==> !Contains(Lower(text), k)
    ensures !KeywordRelevant(p, text)
  {
    NoHitCountsZero(p.keywords, Lower(text));
  }

  /** Every bonus term of the role is a keyword of the profile. */
  lemma RoleExtrasAreKeywords(state: FocusState, k: string)
    requires state.task != ""
    requires k in RoleExtras(state.role)
    ensures k in BuildKeywordProfile(Some(state)).value.keywords
  {
  }

  /**
   A programmer's profile, whatever the task, finds "Rust Ownership Tutorial for Beginners"
   relevant at "medium" strictness: the role's "tutorial" occurs in it.
   */
  lemma ProgrammerTutorialScenario(task: string, title: string)
    requires task != ""
    requires title == "Rust Ownership Tutorial for Beginners"
    ensures var p := BuildKeywordProfile(Some(FocusState(task, "programmer", "medium", false, None, None, None, None)));
            p.Some? && KeywordRelevant(p.value, title)
  {
    var st := FocusState(task, "programmer", "medium", false, None, None, None, None);
    LowerOccursAt(title, "tutorial", 15);
    ContainsAt(Lower(title), "tutorial", 15);
    RoleExtrasAreKeywords(st, "tutorial");
    OneKeywordSuffices(BuildKeywordProfile(Some(st)).value, title, "tutorial");
  }

  /** Under "high" a single keyword is never enough, even when the title contains it. */
  lemma SingleKeywordUnderHigh()
    ensures var p := Profile(["rust"], "high", "rust", "");
            Contains(Lower("rust"), "rust") && !KeywordRelevant(p, "rust")
  {
    var p := Profile(["rust"], "high", "rust", "");
    assert Lower("rust") == "rust";
    assert StartsWith("rust", "rust");
  }
}
