/**
 * The groomer's decision logic: name the incident a failed build belongs
 * to, find the open broken-build story of that name, and either comment
 * the build on it or file a new chore; one pass over the job URLs; and
 * the polling loop with its iteration bound.
 *
 * Every method here is proved against a function of the same name with
 * the suffix `Step`, a transition of the tracker's state; the lemmas in
 * module GroomerProofs state what those transitions promise.
 */
module StatusGroomer {
  import opened Wrappers
  import opened Tracker
  import Concourse

  /** The finished build of one CI job, as decoded from the job's URL. */
  datatype Build = Build(status: string, jobName: string, url: string, pipelineName: string)

  /** One grouping rule: builds whose probe matches `pattern` belong to incident `groupName`. */
  datatype Rule = Rule(pattern: string, groupName: string)

  /** What the regular-expression engine says about a pattern and a string. */
  datatype MatchResult = Matched | NoMatch | MatchError

  /** Why a handling, a pass or the loop stopped. */
  datatype Failure =
    | TrackerError(error: Error)
    | FetchFailed(url: string)
    | IndexOutOfRange   // the Go runtime panic of indexing an empty slice

  datatype Outcome = Pass | Fail(failure: Failure)

  /** The string grouping patterns are matched against. */
  function Probe(b: Build): string
  {
    b.pipelineName + "-" + b.jobName
  }

  /** The name used when no rule matches. */
  function FallbackName(b: Build): string
  {
    b.pipelineName + "/" + b.jobName + " has " + b.status
  }

  /** The name of a grouped incident. */
  function GroupName(groupName: string): string
  {
    groupName + " has failed"
  }

  /** A pattern that fails to evaluate counts as not matching. */
  predicate RuleMatches(r: Rule, probe: string, matcher: (string, string) -> MatchResult)
  {
    matcher(r.pattern, probe) == Matched
  }

  /** Rule `i` is the first rule that matches `probe`. */
  predicate FirstMatch(rules: seq<Rule>, probe: string, matcher: (string, string) -> MatchResult, i: int)
  {
    && 0 <= i < |rules|
    && RuleMatches(rules[i], probe, matcher)
    && forall j :: 0 <= j < i ==> !RuleMatches(rules[j], probe, matcher)
  }

  /** No rule matches `probe`. */
  predicate NoneMatch(rules: seq<Rule>, probe: string, matcher: (string, string) -> MatchResult)
  {
    forall j :: 0 <= j < |rules| ==> !RuleMatches(rules[j], probe, matcher)
  }

  /** getStoryName: the incident name of a failed build. */
  function StoryName(b: Build, rules: seq<Rule>, matcher: (string, string) -> MatchResult): (name: string)
    ensures forall i :: FirstMatch(rules, Probe(b), matcher, i) ==> name == GroupName(rules[i].groupName)
    ensures NoneMatch(rules, Probe(b), matcher) ==> name == FallbackName(b)
  {
    if rules == [] then FallbackName(b)
    else if RuleMatches(rules[0], Probe(b), matcher) then GroupName(rules[0].groupName)
    else
      assert forall i :: FirstMatch(rules, Probe(b), matcher, i) ==> FirstMatch(rules[1..], Probe(b), matcher, i - 1);
      StoryName(b, rules[1..], matcher)
  }

  /** findExistingStory: the first story whose name is exactly `name`. */
  function FindExistingStory(name: string, stories: seq<Story>): (r: Option<Story>)
    ensures r.None? <==> forall i :: 0 <= i < |stories| ==> stories[i].name != name
    ensures r.Some? ==> exists i :: 0 <= i < |stories| && stories[i] == r.value && r.value.name == name
                                   && forall j :: 0 <= j < i ==> stories[j].name != name
  {
    if stories == [] then None
    else if stories[0].name == name then Some(stories[0])
    else
      var r := FindExistingStory(name, stories[1..]);
      assert r.Some? ==> forall i :: 0 <= i < |stories| - 1 && stories[1..][i] == r.value ==> stories[i + 1] == r.value;
      r
  }

  /** The text of the comment that reports a build: its URL on the CI host. */
  function CommentText(host: string, buildURL: string): string
  {
    host + "/" + buildURL
  }

  predicate HasText(comments: seq<Comment>, text: string)
  {
    exists i :: 0 <= i < |comments| && comments[i].text == text
  }

  /** The story createStory asks the tracker to file. */
  function Chore(name: string, text: string, beforeID: int): Story
  {
    Story(name, 0, "unstarted", [BrokenBuildLabel], "chore", beforeID, [Comment(text)])
  }

  /*
   * The decision logic as transitions of the tracker's state. Each
   * function is the specification of the method of the same name
   * without the suffix.
   */

  /**
   * updateStory: comment the build on story `storyID` unless a comment
   * with that text is already there. The error of ListComments is not
   * looked at. The model takes a failing ListComments to return no
   * comments along with its error, so the comment is added regardless.
   */
  function UpdateStoryStep(t: TrackerState, failing: set<Op>, host: string, buildURL: string,
                           projectID: int, storyID: int): (res: (TrackerState, Outcome))
  {
    var text := CommentText(host, buildURL);
    var (t1, listed) := ListCommentsOn(t, failing, projectID, storyID);
    var comments := if listed.Ok? then listed.value else [];
    if HasText(comments, text) then (t1, Pass)
    else
      var (t2, added) := AddCommentOn(t1, failing, projectID, storyID, text);
      (t2, if added.Err? then Fail(TrackerError(added.error)) else Pass)
  }

  /** createStory: file a chore for the build at the top of the backlog. */
  function CreateStoryStep(t: TrackerState, failing: set<Op>, storyName: string, projectID: int,
                           host: string, b: Build): (res: (TrackerState, Outcome))
  {
    var (t1, top) := StoriesOn(t, failing, projectID, TopOfBacklog);
    if top.Err? then (t1, Fail(TrackerError(top.error)))
    else if |top.value| == 0 then (t1, Fail(IndexOutOfRange))
    else
      var (t2, created) := CreateStoryOn(t1, failing, projectID, Chore(storyName, CommentText(host, b.url), top.value[0].id));
      (t2, if created.Err? then Fail(TrackerError(created.error)) else Pass)
  }

  /** handleFailedBuild: comment on the incident's open story, or file one. */
  function HandleFailedBuildStep(t: TrackerState, failing: set<Op>, rules: seq<Rule>,
                                 matcher: (string, string) -> MatchResult, b: Build,
                                 host: string, projectID: int): (res: (TrackerState, Outcome))
  {
    var (t1, open) := StoriesOn(t, failing, projectID, BrokenBuilds);
    if open.Err? then (t1, Fail(TrackerError(open.error)))
    else
      var storyName := StoryName(b, rules, matcher);
      match FindExistingStory(storyName, open.value)
      case Some(existing) => UpdateStoryStep(t1, failing, host, b.url, projectID, existing.id)
      case None => CreateStoryStep(t1, failing, storyName, projectID, host, b)
  }

  /**
   * processURLs: handle, in order, the failed build behind each URL;
   * `fetch` stands for fetching and decoding the URL (None when either
   * fails). The first failure ends the pass.
   */
  function ProcessURLsStep(t: TrackerState, failing: set<Op>, rules: seq<Rule>,
                           matcher: (string, string) -> MatchResult, fetch: string -> Option<Build>,
                           urls: seq<string>, host: string, projectID: int): (res: (TrackerState, Outcome))
    decreases |urls|
  {
    if urls == [] then (t, Pass)
    else match fetch(urls[0])
      case None => (t, Fail(FetchFailed(urls[0])))
      case Some(b) =>
        if b.status != "failed" then ProcessURLsStep(t, failing, rules, matcher, fetch, urls[1..], host, projectID)
        else
          var (t1, handled) := HandleFailedBuildStep(t, failing, rules, matcher, b, host, projectID);
          if handled.Fail? then (t1, handled)
          else ProcessURLsStep(t1, failing, rules, matcher, fetch, urls[1..], host, projectID)
  }

  /*
   * The methods, over the in-memory tracker.
   */

  method UpdateStory(client: FakeTracker, host: string, buildURL: string, projectID: int, storyID: int)
    returns (r: Outcome)
    requires client.Valid()
    modifies client
    ensures client.Valid()
    ensures (client.Current(), r) == UpdateStoryStep(old(client.Current()), client.failing, host, buildURL, projectID, storyID)
  {
    var commentText := CommentText(host, buildURL);
    var listed := client.ListComments(projectID, storyID);
    var comments := if listed.Ok? then listed.value else [];
    for i := 0 to |comments|
      invariant forall k :: 0 <= k < i ==> comments[k].text != commentText
    {
      if comments[i].text == commentText {
        return Pass;
      }
    }
    var added := client.AddComment(projectID, storyID, commentText);
    if added.Err? {
      return Fail(TrackerError(added.error));
    }
    r := Pass;
  }

  method CreateStory(storyName: string, client: FakeTracker, projectID: int, host: string, b: Build)
    returns (r: Outcome)
    requires client.Valid()
    modifies client
    ensures client.Valid()
    ensures (client.Current(), r) == CreateStoryStep(old(client.Current()), client.failing, storyName, projectID, host, b)
  {
    var top := client.Stories(projectID, TopOfBacklog);
    if top.Err? {
      return Fail(TrackerError(top.error));
    }
    if |top.value| == 0 {
      return Fail(IndexOutOfRange);
    }
    var created := client.CreateStory(projectID, Chore(storyName, CommentText(host, b.url), top.value[0].id));
    if created.Err? {
      return Fail(TrackerError(created.error));
    }
    r := Pass;
  }

  method HandleFailedBuild(rules: seq<Rule>, matcher: (string, string) -> MatchResult, b: Build,
                           client: FakeTracker, host: string, projectID: int) returns (r: Outcome)
    requires client.Valid()
    modifies client
    ensures client.Valid()
    ensures (client.Current(), r) == HandleFailedBuildStep(old(client.Current()), client.failing, rules, matcher, b, host, projectID)
  {
    var open := client.Stories(projectID, BrokenBuilds);
    if open.Err? {
      return Fail(TrackerError(open.error));
    }
    var storyName := StoryName(b, rules, matcher);
    var existing := FindExistingStory(storyName, open.value);
    if existing.Some? {
      r := UpdateStory(client, host, b.url, projectID, existing.value.id);
      return;
    }
    r := CreateStory(storyName, client, projectID, host, b);
  }

  method ProcessURLs(rules: seq<Rule>, matcher: (string, string) -> MatchResult, fetch: string -> Option<Build>,
                     urls: seq<string>, client: FakeTracker, host: string, projectID: int) returns (r: Outcome)
    requires client.Valid()
    modifies client
    ensures client.Valid()
    ensures (client.Current(), r) == ProcessURLsStep(old(client.Current()), client.failing, rules, matcher, fetch, urls, host, projectID)
  {
    for i := 0 to |urls|
      invariant client.Valid()
      invariant ProcessURLsStep(old(client.Current()), client.failing, rules, matcher, fetch, urls, host, projectID)
             == ProcessURLsStep(client.Current(), client.failing, rules, matcher, fetch, urls[i..], host, projectID)
    {
      var job := fetch(urls[i]);
      if job.None? {
        return Fail(FetchFailed(urls[i]));
      }
      if job.value.status == "failed" {
        var handled := HandleFailedBuild(rules, matcher, job.value, client, host, projectID);
        if handled.Fail? {
          return handled;
        }
      }
    }
    r := Pass;
  }

  /** The pass counts the loop can end on: the budget when no pass panicked, at most it otherwise. */
  lemma PassCount(passes: nat, maxIterations: int, fuel: nat, crashed: bool)
    requires passes <= fuel && (maxIterations >= 0 ==> passes <= maxIterations + 1)
    requires !crashed ==> passes == fuel || Stops(passes, maxIterations)
    requires crashed ==> 1 <= passes
    ensures !crashed ==> passes == if 0 <= maxIterations < fuel then maxIterations + 1 else fuel
    ensures crashed ==> 1 <= passes && (maxIterations >= 0 ==> passes <= maxIterations + 1)
  {
  }

  /** Whether Groom stops after finishing pass number `iteration` (counted from 1). */
  predicate Stops(iteration: int, maxIterations: int)
  {
    iteration > maxIterations && maxIterations >= 0
  }

  /** The URLs a pass checks: those GetJobURLs lists, none when listing the jobs failed. */
  function PassURLs(host: string, team: string, fetched: Concourse.Fetched): seq<string>
  {
    if fetched.FetchError? then [] else Concourse.AllJobURLs(host, team, fetched.pipelines)
  }

  /** Fetching and decoding a URL during pass number `k` (counted from 0). */
  function PassFetch(fetchAt: (nat, string) -> Option<Build>, k: nat): string -> Option<Build>
  {
    (u: string) => fetchAt(k, u)
  }

  /**
   * Pass number `k` of Groom from tracker state `t`: processURLs over the
   * URLs that pass lists, fetched the way that pass fetches them.
   */
  function PollPass(failing: set<Op>, rules: seq<Rule>, matcher: (string, string) -> MatchResult,
                    host: string, team: string, projectID: int, pipelinesAt: nat -> Concourse.Fetched,
                    fetchAt: (nat, string) -> Option<Build>): (TrackerState, nat) -> (TrackerState, Outcome)
  {
    (t: TrackerState, k: nat) =>
      ProcessURLsStep(t, failing, rules, matcher, PassFetch(fetchAt, k), PassURLs(host, team, pipelinesAt(k)), host, projectID)
  }

  /**
   * The first `k` passes of Groom, each run by `pass`: the tracker they
   * leave, whether one of them panicked, and how many of them ran. Every
   * other error of a pass is only logged, so the next pass starts from the
   * state the failed one reached; after a panic no pass runs.
   */
  function GroomStep(t: TrackerState, pass: (TrackerState, nat) -> (TrackerState, Outcome), k: nat)
    : (res: (TrackerState, bool, nat))
  {
    if k == 0 then (t, false, 0)
    else
      var (t1, crashed, ran) := GroomStep(t, pass, k - 1);
      if crashed then (t1, true, ran)
      else
        var (t2, r) := pass(t1, k - 1);
        (t2, r == Fail(IndexOutOfRange), ran + 1)
  }

  /** One more pass after `k` passes without a panic is pass number `k` run on the state they left. */
  lemma GroomStepNext(t: TrackerState, pass: (TrackerState, nat) -> (TrackerState, Outcome), k: nat, tk: TrackerState)
    requires GroomStep(t, pass, k) == (tk, false, k)
    ensures GroomStep(t, pass, k + 1) == (pass(tk, k).0, pass(tk, k).1 == Fail(IndexOutOfRange), k + 1)
  {
  }

  /**
   * The body of Groom's loop, pass number `k` after `k` passes without a
   * panic from `t0`: list the jobs, then check every URL listed (none when
   * the listing failed).
   */
  method GroomPass(rules: seq<Rule>, matcher: (string, string) -> MatchResult, host: string, team: string,
                   projectID: int, client: FakeTracker, pipelinesAt: nat -> Concourse.Fetched,
                   fetchAt: (nat, string) -> Option<Build>, k: nat, ghost t0: TrackerState)
    returns (r: Outcome)
    requires client.Valid()
    requires GroomStep(t0, PollPass(client.failing, rules, matcher, host, team, projectID, pipelinesAt, fetchAt), k)
          == (client.Current(), false, k)
    modifies client
    ensures client.Valid()
    ensures GroomStep(t0, PollPass(client.failing, rules, matcher, host, team, projectID, pipelinesAt, fetchAt), k + 1)
         == (client.Current(), r == Fail(IndexOutOfRange), k + 1)
  {
    ghost var pass := PollPass(client.failing, rules, matcher, host, team, projectID, pipelinesAt, fetchAt);
    ghost var tk := client.Current();
    GroomStepNext(t0, pass, k, tk);
    var urls, listingError := Concourse.GetJobURLs(host, team, pipelinesAt(k));
    assert urls == PassURLs(host, team, pipelinesAt(k));
    r := ProcessURLs(rules, matcher, PassFetch(fetchAt, k), urls, client, host, projectID);
    assert pass(tk, k) == (client.Current(), r);
  }

  /**
   * Groom: the polling loop. Pass number k reads the pipelines through
   * `pipelinesAt(k)` and the builds through `fetchAt(k, ·)`; the error of
   * listing the jobs and that of a pass are only logged. A panic ends the
   * loop. The source loops for ever when `maxIterations` is negative;
   * here at most `fuel` passes are run.
   */
  method Groom(rules: seq<Rule>, matcher: (string, string) -> MatchResult, host: string, team: string,
               projectID: int, client: FakeTracker, pipelinesAt: nat -> Concourse.Fetched,
               fetchAt: (nat, string) -> Option<Build>, maxIterations: int, fuel: nat)
    returns (passes: nat, crashed: bool)
    requires client.Valid()
    modifies client
    ensures client.Valid()
    ensures (client.Current(), crashed, passes)
         == GroomStep(old(client.Current()), PollPass(client.failing, rules, matcher, host, team, projectID, pipelinesAt, fetchAt),
                      passes)
    ensures passes <= fuel
    ensures !crashed ==> passes == if 0 <= maxIterations < fuel then maxIterations + 1 else fuel
    ensures crashed ==> 1 <= passes && (maxIterations >= 0 ==> passes <= maxIterations + 1)
  {
    ghost var t0 := client.Current();
    passes, crashed := 0, false;
    while passes < fuel
      invariant passes <= fuel
      invariant maxIterations >= 0 ==> passes <= maxIterations
      invariant client.Valid() && !crashed
      invariant GroomStep(t0, PollPass(client.failing, rules, matcher, host, team, projectID, pipelinesAt, fetchAt), passes)
             == (client.Current(), false, passes)
    {
      var r := GroomPass(rules, matcher, host, team, projectID, client, pipelinesAt, fetchAt, passes, t0);
      passes := passes + 1;
      if r == Fail(IndexOutOfRange) {
        crashed := true;
        PassCount(passes, maxIterations, fuel, crashed);
        return;
      }
      if Stops(passes, maxIterations) {
        break;
      }
    }
    PassCount(passes, maxIterations, fuel, crashed);
  }
}
