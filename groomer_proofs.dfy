/**
 * What the groomer's transitions promise: how incident names are chosen,
 * that a build is reported at most once however often it is seen, that
 * a filed story is found again on the next look, and how a pass orders
 * and stops its work.
 */
module GroomerProofs {
  import opened Wrappers
  import opened Tracker
  import opened StatusGroomer

  /*
   * Facts about the tracker's stories.
   */

  lemma {:induction false} QueryAppend(a: seq<Story>, b: seq<Story>, f: Filter)
    ensures Query(a + b, f) == Query(a, f) + Query(b, f)
  {
    if a == [] {
      assert a + b == b;
    } else {
      assert (a + b)[1..] == a[1..] + b;
      QueryAppend(a[1..], b, f);
    }
  }

  lemma {:induction false} WithCommentTail(stories: seq<Story>, id: int, text: string)
    requires stories != []
    ensures WithComment(stories, id, text)[1..] == WithComment(stories[1..], id, text)
  {
  }

  /** Commenting does not change which stories a search returns, only their comments. */
  lemma {:induction false} QueryWithComment(stories: seq<Story>, id: int, text: string, f: Filter)
    ensures Query(WithComment(stories, id, text), f) == WithComment(Query(stories, f), id, text)
  {
    if stories != [] {
      var s0, rest := stories[0], stories[1..];
      var s1 := if s0.id == id then s0.(comments := s0.comments + [Comment(text)]) else s0;
      var w := WithComment(stories, id, text);
      assert w == [s1] + WithComment(rest, id, text);
      assert w[0] == s1 && w[1..] == WithComment(rest, id, text);
      assert Selects(f, s1) == Selects(f, s0);
      QueryWithComment(rest, id, text, f);
      var q := Query(rest, f);
      if Selects(f, s0) {
        assert Query(stories, f) == [s0] + q;
        assert ([s0] + q)[0] == s0 && ([s0] + q)[1..] == q;
        assert WithComment([s0] + q, id, text) == [s1] + WithComment(q, id, text);
        assert Query(w, f) == [s1] + Query(w[1..], f);
      } else {
        assert Query(stories, f) == q;
        assert Query(w, f) == Query(w[1..], f);
      }
    }
  }

  lemma {:induction false} FindAppend(name: string, a: seq<Story>, b: seq<Story>)
    ensures FindExistingStory(name, a + b)
         == if FindExistingStory(name, a).Some? then FindExistingStory(name, a) else FindExistingStory(name, b)
  {
    if a == [] {
      assert a + b == b;
    } else {
      assert (a + b)[1..] == a[1..] + b;
      FindAppend(name, a[1..], b);
    }
  }

  /** Commenting does not change which story a name finds. */
  lemma {:induction false} FindWithComment(name: string, stories: seq<Story>, id: int, text: string)
    ensures FindExistingStory(name, WithComment(stories, id, text))
         == match FindExistingStory(name, stories)
            case None => None
            case Some(x) => Some(if x.id == id then x.(comments := x.comments + [Comment(text)]) else x)
  {
    if stories != [] {
      WithCommentTail(stories, id, text);
      FindWithComment(name, stories[1..], id, text);
    }
  }

  /** With distinct identifiers, the comments listed for a story are its own. */
  lemma {:induction false} CommentsOfMember(stories: seq<Story>, nextID: int, i: int)
    requires ValidStories(stories, nextID) && 0 <= i < |stories|
    ensures HasStory(stories, stories[i].id)
    ensures CommentsOf(stories, stories[i].id) == stories[i].comments
  {
    if i > 0 {
      assert stories[0].id != stories[i].id;
      assert ValidStories(stories[1..], nextID);
      CommentsOfMember(stories[1..], nextID, i - 1);
    }
  }

  /** Adding a comment appends it to the story's comments. */
  lemma {:induction false} CommentsOfWithComment(stories: seq<Story>, id: int, text: string)
    requires HasStory(stories, id)
    ensures HasStory(WithComment(stories, id, text), id)
    ensures CommentsOf(WithComment(stories, id, text), id) == CommentsOf(stories, id) + [Comment(text)]
  {
    var w := WithComment(stories, id, text);
    assert w[0].id == stories[0].id;
    if stories[0].id != id {
      var i :| 0 <= i < |stories| && stories[i].id == id;
      assert stories[1..][i - 1].id == id;
      WithCommentTail(stories, id, text);
      CommentsOfWithComment(stories[1..], id, text);
    }
  }

  lemma WithCommentKeepsValid(stories: seq<Story>, nextID: int, id: int, text: string)
    requires ValidStories(stories, nextID)
    ensures ValidStories(WithComment(stories, id, text), nextID)
  {
  }

  /** A story filed under a name no open broken-build story has is the one that name finds next. */
  lemma FoundAfterInsert(stories: seq<Story>, c: Story, beforeID: int, name: string)
    requires FindExistingStory(name, Query(stories, BrokenBuilds)).None?
    requires Selects(BrokenBuilds, c) && c.name == name
    ensures FindExistingStory(name, Query(Inserted(stories, c, beforeID), BrokenBuilds)) == Some(c)
  {
    var k := InsertionPoint(stories, beforeID);
    var qf, qb := Query(stories[..k], BrokenBuilds), Query(stories[k..], BrokenBuilds);
    assert FindExistingStory(name, qf).None? by {
      assert stories == stories[..k] + stories[k..];
      QueryAppend(stories[..k], stories[k..], BrokenBuilds);
      FindAppend(name, qf, qb);
    }
    assert Query(Inserted(stories, c, beforeID), BrokenBuilds) == (qf + [c]) + qb by {
      QueryAppend(stories[..k] + [c], stories[k..], BrokenBuilds);
      QueryAppend(stories[..k], [c], BrokenBuilds);
      assert Query([c], BrokenBuilds) == [c];
    }
    assert FindExistingStory(name, qf + [c]) == Some(c) by {
      FindAppend(name, qf, [c]);
    }
    FindAppend(name, qf + [c], qb);
  }

  /*
   * Incident names.
   */

  /** A rule whose pattern does not match (or fails to evaluate) can be removed without changing any name. */
  lemma {:induction false} NonMatchingRuleIsSkipped(b: Build, rules: seq<Rule>, matcher: (string, string) -> MatchResult, i: int)
    requires 0 <= i < |rules| && !RuleMatches(rules[i], Probe(b), matcher)
    ensures StoryName(b, rules[..i] + rules[i + 1..], matcher) == StoryName(b, rules, matcher)
  {
    if i == 0 {
      assert rules[..i] + rules[i + 1..] == rules[1..];
    } else {
      assert (rules[..i] + rules[i + 1..])[0] == rules[0];
      assert (rules[..i] + rules[i + 1..])[1..] == rules[1..][..i - 1] + rules[1..][i..];
      NonMatchingRuleIsSkipped(b, rules[1..], matcher, i - 1);
    }
  }

  /** Rules added after one that matches never change the name. */
  lemma {:induction false} LaterRulesIgnored(b: Build, rules: seq<Rule>, more: seq<Rule>, matcher: (string, string) -> MatchResult, j: int)
    requires 0 <= j < |rules| && RuleMatches(rules[j], Probe(b), matcher)
    ensures StoryName(b, rules + more, matcher) == StoryName(b, rules, matcher)
  {
    if !RuleMatches(rules[0], Probe(b), matcher) {
      assert (rules + more)[1..] == rules[1..] + more;
      LaterRulesIgnored(b, rules[1..], more, matcher, j - 1);
    }
  }

  /*
   * One failed build.
   */

  lemma UpdateStoryKeepsValid(t: TrackerState, failing: set<Op>, host: string, buildURL: string,
                              projectID: int, storyID: int)
    requires ValidStories(t.stories, t.nextID)
    ensures var t1 := UpdateStoryStep(t, failing, host, buildURL, projectID, storyID).0;
            ValidStories(t1.stories, t1.nextID) && t.log <= t1.log
  {
    WithCommentKeepsValid(t.stories, t.nextID, storyID, CommentText(host, buildURL));
  }

  lemma CreateStoryKeepsValid(t: TrackerState, failing: set<Op>, name: string, projectID: int, host: string, b: Build)
    requires ValidStories(t.stories, t.nextID)
    ensures var t1 := CreateStoryStep(t, failing, name, projectID, host, b).0;
            ValidStories(t1.stories, t1.nextID) && t.log <= t1.log
  {
    var top := Query(t.stories, TopOfBacklog);
    if StoriesOp(TopOfBacklog) !in failing && |top| > 0 && CreateStoryOp !in failing {
      var c := Chore(name, CommentText(host, b.url), top[0].id).(id := t.nextID);
      InsertedKeepsValid(t.stories, t.nextID, c, top[0].id);
    }
  }

  lemma HandleFailedBuildKeepsValid(t: TrackerState, failing: set<Op>, rules: seq<Rule>,
                                    matcher: (string, string) -> MatchResult, b: Build, host: string, projectID: int)
    requires ValidStories(t.stories, t.nextID)
    ensures var t1 := HandleFailedBuildStep(t, failing, rules, matcher, b, host, projectID).0;
            ValidStories(t1.stories, t1.nextID) && t.log <= t1.log
  {
    var ta := t.(log := t.log + [StoriesCall(projectID, BrokenBuilds)]);
    if StoriesOp(BrokenBuilds) !in failing {
      var name := StoryName(b, rules, matcher);
      match FindExistingStory(name, Query(t.stories, BrokenBuilds))
      case Some(x) =>
        assert HandleFailedBuildStep(t, failing, rules, matcher, b, host, projectID)
            == UpdateStoryStep(ta, failing, host, b.url, projectID, x.id);
        UpdateStoryKeepsValid(ta, failing, host, b.url, projectID, x.id);
      case None =>
        assert HandleFailedBuildStep(t, failing, rules, matcher, b, host, projectID)
            == CreateStoryStep(ta, failing, name, projectID, host, b);
        CreateStoryKeepsValid(ta, failing, name, projectID, host, b);
    }
  }

  /**
   * The build with comment `text` is reported under incident `name`: the
   * open broken-build story that name finds carries that comment.
   */
  ghost predicate Reported(stories: seq<Story>, name: string, text: string)
  {
    var found := FindExistingStory(name, Query(stories, BrokenBuilds));
    found.Some? && HasStory(stories, found.value.id) && HasText(CommentsOf(stories, found.value.id), text)
  }

  /** Handling a build that is already reported changes no story and only reads. */
  lemma ReportedBuildIsLeftAlone(t: TrackerState, failing: set<Op>, rules: seq<Rule>,
                                 matcher: (string, string) -> MatchResult, b: Build, host: string, projectID: int)
    requires Reported(t.stories, StoryName(b, rules, matcher), CommentText(host, b.url))
    requires ListCommentsOp !in failing
    ensures var t1 := HandleFailedBuildStep(t, failing, rules, matcher, b, host, projectID).0;
            && t1.stories == t.stories && t1.nextID == t.nextID
            && t.log <= t1.log
            && forall c :: c in t1.log[|t.log|..] ==> c.StoriesCall? || c.ListCommentsCall?
  {
  }

  /** The story a name finds is one of the tracker's, and its listed comments are its own. */
  lemma FoundStoryComments(stories: seq<Story>, nextID: int, name: string, x: Story)
    requires ValidStories(stories, nextID)
    requires FindExistingStory(name, Query(stories, BrokenBuilds)) == Some(x)
    ensures HasStory(stories, x.id) && CommentsOf(stories, x.id) == x.comments
  {
    assert x in Query(stories, BrokenBuilds);
    var k :| 0 <= k < |stories| && stories[k] == x;
    CommentsOfMember(stories, nextID, k);
  }

  /** Adding the comment to the story the name finds leaves the build reported. */
  lemma CommentMakesReported(stories: seq<Story>, nextID: int, name: string, x: Story, text: string)
    requires ValidStories(stories, nextID)
    requires FindExistingStory(name, Query(stories, BrokenBuilds)) == Some(x)
    ensures Reported(WithComment(stories, x.id, text), name, text)
  {
    var w := WithComment(stories, x.id, text);
    FoundStoryComments(stories, nextID, name, x);
    QueryWithComment(stories, x.id, text, BrokenBuilds);
    FindWithComment(name, Query(stories, BrokenBuilds), x.id, text);
    CommentsOfWithComment(stories, x.id, text);
    var cs := CommentsOf(w, x.id);
    assert cs[|cs| - 1].text == text;
  }

  /**
   * A successful updateStory on an existing story leaves the build
   * reported, whether or not ListComments answered: when it fails the
   * comment is added regardless.
   */
  lemma CommentingReports(t: TrackerState, failing: set<Op>, name: string, host: string, buildURL: string,
                          projectID: int, x: Story)
    requires ValidStories(t.stories, t.nextID)
    requires FindExistingStory(name, Query(t.stories, BrokenBuilds)) == Some(x)
    requires UpdateStoryStep(t, failing, host, buildURL, projectID, x.id).1 == Pass
    ensures Reported(UpdateStoryStep(t, failing, host, buildURL, projectID, x.id).0.stories, name, CommentText(host, buildURL))
  {
    var text := CommentText(host, buildURL);
    FoundStoryComments(t.stories, t.nextID, name, x);
    if ListCommentsOp in failing {
      assert !HasText([], text);
      assert UpdateStoryStep(t, failing, host, buildURL, projectID, x.id).0.stories == WithComment(t.stories, x.id, text);
      CommentMakesReported(t.stories, t.nextID, name, x, text);
    } else if !HasText(x.comments, text) {
      CommentMakesReported(t.stories, t.nextID, name, x, text);
    }
  }

  /** A successful filing leaves the build reported, on the story just filed. */
  lemma FilingReports(t: TrackerState, failing: set<Op>, name: string, host: string, b: Build, projectID: int)
    requires ValidStories(t.stories, t.nextID)
    requires FindExistingStory(name, Query(t.stories, BrokenBuilds)).None?
    requires CreateStoryStep(t, failing, name, projectID, host, b).1 == Pass
    ensures Reported(CreateStoryStep(t, failing, name, projectID, host, b).0.stories, name, CommentText(host, b.url))
  {
    var text := CommentText(host, b.url);
    var t1 := CreateStoryStep(t, failing, name, projectID, host, b).0;
    var top := Query(t.stories, TopOfBacklog);
    var c := Chore(name, text, top[0].id).(id := t.nextID);
    assert t1.stories == Inserted(t.stories, c, top[0].id);
    FoundAfterInsert(t.stories, c, top[0].id, name);
    InsertedKeepsValid(t.stories, t.nextID, c, top[0].id);
    var k := InsertionPoint(t.stories, top[0].id);
    assert t1.stories[k] == c;
    CommentsOfMember(t1.stories, t1.nextID, k);
    assert CommentsOf(t1.stories, c.id)[0].text == text;
  }

  /** A successful handling leaves the build reported, whichever tracker calls failed on the way. */
  lemma HandlingReports(t: TrackerState, failing: set<Op>, rules: seq<Rule>,
                        matcher: (string, string) -> MatchResult, b: Build, host: string, projectID: int)
    requires ValidStories(t.stories, t.nextID)
    requires HandleFailedBuildStep(t, failing, rules, matcher, b, host, projectID).1 == Pass
    ensures Reported(HandleFailedBuildStep(t, failing, rules, matcher, b, host, projectID).0.stories,
                     StoryName(b, rules, matcher), CommentText(host, b.url))
  {
    var name := StoryName(b, rules, matcher);
    var ta := StoriesOn(t, failing, projectID, BrokenBuilds).0;
    match FindExistingStory(name, Query(t.stories, BrokenBuilds))
    case Some(x) =>
      CommentingReports(ta, failing, name, host, b.url, projectID, x);
    case None =>
      FilingReports(ta, failing, name, host, b, projectID);
  }

  /**
   * Handling the same failed build a second time, once the first handling
   * succeeded, changes no story and only reads: a build is reported at
   * most once. This needs ListComments to answer; see
   * ListCommentsFailureRepeatsComment for what happens when it does not.
   */
  lemma HandleFailedBuildIdempotent(t: TrackerState, failing: set<Op>, rules: seq<Rule>,
                                    matcher: (string, string) -> MatchResult, b: Build, host: string, projectID: int)
    requires ValidStories(t.stories, t.nextID)
    requires ListCommentsOp !in failing
    requires HandleFailedBuildStep(t, failing, rules, matcher, b, host, projectID).1 == Pass
    ensures var t1 := HandleFailedBuildStep(t, failing, rules, matcher, b, host, projectID).0;
            var t2 := HandleFailedBuildStep(t1, failing, rules, matcher, b, host, projectID).0;
            && t2.stories == t1.stories && t2.nextID == t1.nextID
            && t1.log <= t2.log
            && forall c :: c in t2.log[|t1.log|..] ==> c.StoriesCall? || c.ListCommentsCall?
  {
    var t1 := HandleFailedBuildStep(t, failing, rules, matcher, b, host, projectID).0;
    HandlingReports(t, failing, rules, matcher, b, host, projectID);
    ReportedBuildIsLeftAlone(t1, failing, rules, matcher, b, host, projectID);
  }

  /*
   * updateStory and createStory on their own.
   */

  /** How many comments of `comments` have text `text`. */
  function Occurrences(comments: seq<Comment>, text: string): nat
  {
    if comments == [] then 0
    else Occurrences(comments[..|comments| - 1], text) + (if comments[|comments| - 1].text == text then 1 else 0)
  }

  lemma {:induction false} OccurrencesHasText(comments: seq<Comment>, text: string)
    ensures Occurrences(comments, text) > 0 <==> HasText(comments, text)
  {
    if comments != [] {
      var init := comments[..|comments| - 1];
      OccurrencesHasText(init, text);
      if HasText(init, text) {
        var i :| 0 <= i < |init| && init[i].text == text;
        assert comments[i].text == text;
      }
      if HasText(comments, text) && comments[|comments| - 1].text != text {
        var i :| 0 <= i < |comments| && comments[i].text == text;
        assert init[i].text == text;
      }
    }
  }

  /**
   * updateStory, with ListComments answering: the comment is added only
   * when no comment has its text, so afterwards it is there exactly once
   * if it was missing and as often as before otherwise; no other story
   * changes.
   */
  lemma UpdateStoryCommentsOnlyWhenNew(t: TrackerState, failing: set<Op>, host: string, buildURL: string,
                                      projectID: int, storyID: int)
    requires ValidStories(t.stories, t.nextID)
    requires ListCommentsOp !in failing
    ensures var (t1, r) := UpdateStoryStep(t, failing, host, buildURL, projectID, storyID);
            var text := CommentText(host, buildURL);
            && |t1.stories| == |t.stories| && t1.nextID == t.nextID
            && (forall i :: 0 <= i < |t.stories| && t.stories[i].id != storyID ==> t1.stories[i] == t.stories[i])
            && (r.Pass? ==> HasStory(t.stories, storyID))
            && (HasStory(t.stories, storyID) ==>
                  Occurrences(CommentsOf(t1.stories, storyID), text)
                  == if r.Pass? && Occurrences(CommentsOf(t.stories, storyID), text) == 0 then 1
                     else Occurrences(CommentsOf(t.stories, storyID), text))
  {
    var text := CommentText(host, buildURL);
    var t0 := t.(log := t.log + [ListCommentsCall(projectID, storyID)]);
    var added := t0.log + [AddCommentCall(projectID, storyID, text)];
    var res := UpdateStoryStep(t, failing, host, buildURL, projectID, storyID);
    if !HasStory(t.stories, storyID) {
      assert res == (t0.(log := added), Fail(TrackerError(if AddCommentOp in failing then Unavailable(AddCommentOp) else StoryNotFound(storyID))));
    } else {
      var before := CommentsOf(t.stories, storyID);
      OccurrencesHasText(before, text);
      if HasText(before, text) {
        assert res == (t0, Pass);
      } else if AddCommentOp in failing {
        assert res == (t0.(log := added), Fail(TrackerError(Unavailable(AddCommentOp))));
      } else {
        assert res == (TrackerState(WithComment(t.stories, storyID, text), t.nextID, added), Pass);
        CommentsOfWithComment(t.stories, storyID, text);
        assert (before + [Comment(text)])[..|before|] == before;
      }
    }
  }

  /**
   * updateStory as written does not look at the error of ListComments:
   * when ListComments fails and AddComment does not, the comment is added
   * even if the story already has it.
   */
  lemma ListCommentsFailureRepeatsComment(t: TrackerState, failing: set<Op>, host: string, buildURL: string,
                                          projectID: int, storyID: int)
    requires HasStory(t.stories, storyID)
    requires ListCommentsOp in failing && AddCommentOp !in failing
    ensures var (t1, r) := UpdateStoryStep(t, failing, host, buildURL, projectID, storyID);
            var text := CommentText(host, buildURL);
            && r == Pass
            && HasStory(t1.stories, storyID)
            && Occurrences(CommentsOf(t1.stories, storyID), text) == Occurrences(CommentsOf(t.stories, storyID), text) + 1
  {
    var text := CommentText(host, buildURL);
    CommentsOfWithComment(t.stories, storyID, text);
    var before := CommentsOf(t.stories, storyID);
    assert (before + [Comment(text)])[..|before|] == before;
  }

  lemma MemberHasStory(stories: seq<Story>, s: Story)
    requires s in stories
    ensures HasStory(stories, s.id)
  {
    var i :| 0 <= i < |stories| && stories[i] == s;
  }

  /** Filing before an existing story puts the new story right in front of it and moves nothing else. */
  lemma InsertedBefore(stories: seq<Story>, c: Story, beforeID: int)
    requires HasStory(stories, beforeID)
    ensures var r := Inserted(stories, c, beforeID);
            var k := InsertionPoint(stories, beforeID);
            && k < |stories| && |r| == |stories| + 1
            && r[k] == c && r[k + 1].id == beforeID
            && r[..k] + r[k + 1..] == stories
  {
    var k := InsertionPoint(stories, beforeID);
    assert k < |stories| by {
      var i :| 0 <= i < |stories| && stories[i].id == beforeID;
      assert k <= i;
    }
    Splice(stories, k, c);
  }

  /** Putting `x` at position `k` shifts what follows by one and leaves the rest in order. */
  lemma Splice<T>(xs: seq<T>, k: nat, x: T)
    requires k <= |xs|
    ensures var r := xs[..k] + [x] + xs[k..];
            && |r| == |xs| + 1 && r[k] == x
            && (k < |xs| ==> r[k + 1] == xs[k])
            && r[..k] + r[k + 1..] == xs
  {
    var r := xs[..k] + [x] + xs[k..];
    assert r[..k] == xs[..k] && r[k + 1..] == xs[k..];
    assert xs == xs[..k] + xs[k..];
  }

  /**
   * A successful createStory files exactly one story: the chore named
   * after the incident, unstarted, labelled "broken build", with the
   * build's URL as its one comment, placed immediately before the first
   * story of the top-of-backlog search; every other story stays as it was.
   */
  lemma FiledChore(t: TrackerState, failing: set<Op>, name: string, projectID: int, host: string, b: Build)
    requires CreateStoryStep(t, failing, name, projectID, host, b).1 == Pass
    ensures var t1 := CreateStoryStep(t, failing, name, projectID, host, b).0;
            var top := Query(t.stories, TopOfBacklog);
            var k := InsertionPoint(t.stories, top[0].id);
            && |top| > 0 && k < |t.stories|
            && |t1.stories| == |t.stories| + 1 && t1.nextID == t.nextID + 1
            && t1.stories[k] == Story(name, t.nextID, "unstarted", [BrokenBuildLabel], "chore", top[0].id,
                                      [Comment(CommentText(host, b.url))])
            && t1.stories[k + 1].id == top[0].id
            && t1.stories[..k] + t1.stories[k + 1..] == t.stories
            && t1.log == t.log + [StoriesCall(projectID, TopOfBacklog),
                                  CreateStoryCall(projectID, Chore(name, CommentText(host, b.url), top[0].id))]
  {
    var top := Query(t.stories, TopOfBacklog);
    var t0 := t.(log := t.log + [StoriesCall(projectID, TopOfBacklog)]);
    assert StoriesOp(TopOfBacklog) !in failing;
    assert StoriesOn(t, failing, projectID, TopOfBacklog) == (t0, Ok(top));
    assert |top| > 0;
    var input := Chore(name, CommentText(host, b.url), top[0].id);
    assert CreateStoryOp !in failing;
    var c := input.(id := t.nextID);
    var t1 := TrackerState(Inserted(t.stories, c, top[0].id), t.nextID + 1, t0.log + [CreateStoryCall(projectID, input)]);
    assert CreateStoryOn(t0, failing, projectID, input) == (t1, Ok(c));
    assert CreateStoryStep(t, failing, name, projectID, host, b).0 == t1;
    assert t1.log == t.log + [StoriesCall(projectID, TopOfBacklog), CreateStoryCall(projectID, input)];
    assert c == Story(name, t.nextID, "unstarted", [BrokenBuildLabel], "chore", top[0].id, [Comment(CommentText(host, b.url))]);
    MemberHasStory(t.stories, top[0]);
    InsertedBefore(t.stories, c, top[0].id);
  }

  /**
   * A failed createStory files nothing; with an empty top-of-backlog
   * result it ends in the index-out-of-range panic before CreateStory is
   * called.
   */
  lemma CreateStoryFailures(t: TrackerState, failing: set<Op>, name: string, projectID: int, host: string, b: Build)
    ensures var (t1, r) := CreateStoryStep(t, failing, name, projectID, host, b);
            && (r.Fail? ==> t1.stories == t.stories && t1.nextID == t.nextID)
            && (StoriesOp(TopOfBacklog) in failing ==>
                  r == Fail(TrackerError(Unavailable(StoriesOp(TopOfBacklog)))) && |t1.log| == |t.log| + 1)
            && (StoriesOp(TopOfBacklog) !in failing && Query(t.stories, TopOfBacklog) == [] ==>
                  r == Fail(IndexOutOfRange) && t1.log == t.log + [StoriesCall(projectID, TopOfBacklog)])
            && (StoriesOp(TopOfBacklog) !in failing && Query(t.stories, TopOfBacklog) != [] && CreateStoryOp in failing ==>
                  r == Fail(TrackerError(Unavailable(CreateStoryOp))))
  {
  }

  /*
   * handleFailedBuild takes exactly one path: a failed search of open
   * stories changes nothing; when a story has the incident's name only
   * the comment path runs and CreateStory is not called; otherwise only
   * the create path runs and no comment is listed or added.
   */

  lemma FailedSearchChangesNothing(t: TrackerState, failing: set<Op>, rules: seq<Rule>,
                                   matcher: (string, string) -> MatchResult, b: Build, host: string, projectID: int)
    requires StoriesOp(BrokenBuilds) in failing
    ensures HandleFailedBuildStep(t, failing, rules, matcher, b, host, projectID)
         == (t.(log := t.log + [StoriesCall(projectID, BrokenBuilds)]),
             Fail(TrackerError(Unavailable(StoriesOp(BrokenBuilds)))))
  {
  }

  lemma OpenStoryTakesCommentPath(t: TrackerState, failing: set<Op>, rules: seq<Rule>,
                                  matcher: (string, string) -> MatchResult, b: Build, host: string, projectID: int)
    requires StoriesOp(BrokenBuilds) !in failing
    requires FindExistingStory(StoryName(b, rules, matcher), Query(t.stories, BrokenBuilds)).Some?
    ensures var t1 := HandleFailedBuildStep(t, failing, rules, matcher, b, host, projectID).0;
            var x := FindExistingStory(StoryName(b, rules, matcher), Query(t.stories, BrokenBuilds)).value;
            var logged := t.log + [StoriesCall(projectID, BrokenBuilds), ListCommentsCall(projectID, x.id)];
            && t1.nextID == t.nextID
            && (t1.log == logged || t1.log == logged + [AddCommentCall(projectID, x.id, CommentText(host, b.url))])
  {
    var x := FindExistingStory(StoryName(b, rules, matcher), Query(t.stories, BrokenBuilds)).value;
    var ta := t.(log := t.log + [StoriesCall(projectID, BrokenBuilds)]);
    assert HandleFailedBuildStep(t, failing, rules, matcher, b, host, projectID)
        == UpdateStoryStep(ta, failing, host, b.url, projectID, x.id);
    UpdateStoryCalls(ta, failing, host, b.url, projectID, x.id);
  }

  lemma NoOpenStoryTakesCreatePath(t: TrackerState, failing: set<Op>, rules: seq<Rule>,
                                   matcher: (string, string) -> MatchResult, b: Build, host: string, projectID: int)
    requires StoriesOp(BrokenBuilds) !in failing
    requires FindExistingStory(StoryName(b, rules, matcher), Query(t.stories, BrokenBuilds)).None?
    ensures var t1 := HandleFailedBuildStep(t, failing, rules, matcher, b, host, projectID).0;
            var logged := t.log + [StoriesCall(projectID, BrokenBuilds), StoriesCall(projectID, TopOfBacklog)];
            || t1.log == logged
            || (|t1.log| == |logged| + 1 && t1.log[..|logged|] == logged && t1.log[|logged|].CreateStoryCall?)
  {
    var ta := t.(log := t.log + [StoriesCall(projectID, BrokenBuilds)]);
    assert HandleFailedBuildStep(t, failing, rules, matcher, b, host, projectID)
        == CreateStoryStep(ta, failing, StoryName(b, rules, matcher), projectID, host, b);
    CreateStoryCalls(ta, failing, StoryName(b, rules, matcher), projectID, host, b);
  }

  /** updateStory lists the story's comments, then at most adds one; it files nothing. */
  lemma UpdateStoryCalls(t: TrackerState, failing: set<Op>, host: string, buildURL: string, projectID: int, storyID: int)
    ensures var t1 := UpdateStoryStep(t, failing, host, buildURL, projectID, storyID).0;
            && t1.nextID == t.nextID
            && (|| t1.log == t.log + [ListCommentsCall(projectID, storyID)]
                || t1.log == t.log + [ListCommentsCall(projectID, storyID),
                                      AddCommentCall(projectID, storyID, CommentText(host, buildURL))])
  {
  }

  /** createStory searches the top of the backlog, then at most files one story; it lists and adds no comment. */
  lemma CreateStoryCalls(t: TrackerState, failing: set<Op>, name: string, projectID: int, host: string, b: Build)
    ensures var t1 := CreateStoryStep(t, failing, name, projectID, host, b).0;
            var logged := t.log + [StoriesCall(projectID, TopOfBacklog)];
            || t1.log == logged
            || (|t1.log| == |logged| + 1 && t1.log[..|logged|] == logged && t1.log[|logged|].CreateStoryCall?)
  {
  }

  /*
   * One pass.
   */

  /** A pass over jobs none of which failed makes no tracker call at all. */
  lemma {:induction false} PassIgnoresOtherStatuses(t: TrackerState, failing: set<Op>, rules: seq<Rule>,
                                                    matcher: (string, string) -> MatchResult, fetch: string -> Option<Build>,
                                                    urls: seq<string>, host: string, projectID: int)
    requires forall i :: 0 <= i < |urls| ==> fetch(urls[i]).Some? && fetch(urls[i]).value.status != "failed"
    ensures ProcessURLsStep(t, failing, rules, matcher, fetch, urls, host, projectID) == (t, Pass)
  {
    if urls != [] {
      PassIgnoresOtherStatuses(t, failing, rules, matcher, fetch, urls[1..], host, projectID);
    }
  }

  /**
   * A pass over `a + b` is the pass over `a` followed, unless it failed,
   * by the pass over `b`: URLs are handled in order and the first failure
   * ends the pass.
   */
  lemma {:induction false} PassSplits(t: TrackerState, failing: set<Op>, rules: seq<Rule>,
                                      matcher: (string, string) -> MatchResult, fetch: string -> Option<Build>,
                                      a: seq<string>, b: seq<string>, host: string, projectID: int)
    decreases a
    ensures ProcessURLsStep(t, failing, rules, matcher, fetch, a + b, host, projectID)
         == var (t1, r) := ProcessURLsStep(t, failing, rules, matcher, fetch, a, host, projectID);
            if r.Fail? then (t1, r) else ProcessURLsStep(t1, failing, rules, matcher, fetch, b, host, projectID)
  {
    if a == [] {
      assert a + b == b;
    } else {
      assert (a + b)[0] == a[0] && (a + b)[1..] == a[1..] + b;
      match fetch(a[0])
      case None =>
      case Some(build) =>
        if build.status != "failed" {
          PassSplits(t, failing, rules, matcher, fetch, a[1..], b, host, projectID);
        } else {
          var t1 := HandleFailedBuildStep(t, failing, rules, matcher, build, host, projectID).0;
          PassSplits(t1, failing, rules, matcher, fetch, a[1..], b, host, projectID);
        }
    }
  }

  /** A URL that cannot be fetched ends the pass: nothing after it is handled. */
  lemma PassStopsAtFetchFailure(t: TrackerState, failing: set<Op>, rules: seq<Rule>,
                                matcher: (string, string) -> MatchResult, fetch: string -> Option<Build>,
                                urls: seq<string>, i: int, host: string, projectID: int)
    requires 0 <= i < |urls| && fetch(urls[i]).None?
    ensures var (t1, r) := ProcessURLsStep(t, failing, rules, matcher, fetch, urls, host, projectID);
            var (t0, r0) := ProcessURLsStep(t, failing, rules, matcher, fetch, urls[..i], host, projectID);
            r.Fail? && t1 == t0
  {
    assert urls == urls[..i] + urls[i..];
    PassSplits(t, failing, rules, matcher, fetch, urls[..i], urls[i..], host, projectID);
  }

  /**
   * A failed build of an incident with no open story, on a tracker that
   * answers every call: one story is filed, and it is the one the
   * incident's name finds from then on, with the build's URL as its one
   * comment.
   */
  lemma NewIncidentIsFiled(t: TrackerState, rules: seq<Rule>, matcher: (string, string) -> MatchResult,
                           b: Build, host: string, projectID: int)
    requires ValidStories(t.stories, t.nextID)
    requires FindExistingStory(StoryName(b, rules, matcher), Query(t.stories, BrokenBuilds)).None?
    requires Query(t.stories, TopOfBacklog) != []
    ensures var (t1, r) := HandleFailedBuildStep(t, {}, rules, matcher, b, host, projectID);
            var found := FindExistingStory(StoryName(b, rules, matcher), Query(t1.stories, BrokenBuilds));
            && r == Pass
            && |t1.stories| == |t.stories| + 1 && t1.nextID == t.nextID + 1
            && ValidStories(t1.stories, t1.nextID)
            && found.Some? && found.value.id == t.nextID && found.value.comments == [Comment(CommentText(host, b.url))]
            && HasStory(t1.stories, t.nextID)
            && CommentsOf(t1.stories, t.nextID) == [Comment(CommentText(host, b.url))]
  {
    var name := StoryName(b, rules, matcher);
    var ta := t.(log := t.log + [StoriesCall(projectID, BrokenBuilds)]);
    assert HandleFailedBuildStep(t, {}, rules, matcher, b, host, projectID)
        == CreateStoryStep(ta, {}, name, projectID, host, b);
    var top := Query(t.stories, TopOfBacklog);
    var chore := Chore(name, CommentText(host, b.url), top[0].id).(id := t.nextID);
    var t1 := HandleFailedBuildStep(t, {}, rules, matcher, b, host, projectID).0;
    assert t1.stories == Inserted(t.stories, chore, top[0].id) && t1.nextID == t.nextID + 1;
    MemberHasStory(t.stories, top[0]);
    ChoreFiled(t.stories, t.nextID, chore, top[0].id, name);
  }

  /** The stories after filing a new incident's chore: the chore is the one its name finds, with its own comments. */
  lemma ChoreFiled(stories: seq<Story>, nextID: int, chore: Story, beforeID: int, name: string)
    requires ValidStories(stories, nextID) && HasStory(stories, beforeID)
    requires FindExistingStory(name, Query(stories, BrokenBuilds)).None?
    requires Selects(BrokenBuilds, chore) && chore.name == name && chore.id == nextID
    ensures var s1 := Inserted(stories, chore, beforeID);
            && |s1| == |stories| + 1
            && ValidStories(s1, nextID + 1)
            && FindExistingStory(name, Query(s1, BrokenBuilds)) == Some(chore)
            && HasStory(s1, nextID)
            && CommentsOf(s1, nextID) == chore.comments
  {
    FoundAfterInsert(stories, chore, beforeID, name);
    InsertedKeepsValid(stories, nextID, chore, beforeID);
    InsertedBefore(stories, chore, beforeID);
    CommentsOfMember(Inserted(stories, chore, beforeID), nextID + 1, InsertionPoint(stories, beforeID));
  }

  /**
   * A failed build of an incident with an open story, on a tracker that
   * answers every call: the build's URL is appended to that story's
   * comments unless it is there already; no story is filed.
   */
  lemma OpenIncidentIsCommented(t: TrackerState, rules: seq<Rule>, matcher: (string, string) -> MatchResult,
                                b: Build, host: string, projectID: int, x: Story)
    requires ValidStories(t.stories, t.nextID)
    requires FindExistingStory(StoryName(b, rules, matcher), Query(t.stories, BrokenBuilds)) == Some(x)
    ensures var (t1, r) := HandleFailedBuildStep(t, {}, rules, matcher, b, host, projectID);
            var text := CommentText(host, b.url);
            && r == Pass
            && |t1.stories| == |t.stories| && t1.nextID == t.nextID
            && ValidStories(t1.stories, t1.nextID)
            && FindExistingStory(StoryName(b, rules, matcher), Query(t1.stories, BrokenBuilds)).Some?
            && FindExistingStory(StoryName(b, rules, matcher), Query(t1.stories, BrokenBuilds)).value.id == x.id
            && HasStory(t1.stories, x.id)
            && CommentsOf(t1.stories, x.id) == if HasText(x.comments, text) then x.comments else x.comments + [Comment(text)]
  {
    var name := StoryName(b, rules, matcher);
    var text := CommentText(host, b.url);
    var res := HandleFailedBuildStep(t, {}, rules, matcher, b, host, projectID);
    var t0 := t.(log := t.log + [StoriesCall(projectID, BrokenBuilds)]);
    var t1 := t0.(log := t0.log + [ListCommentsCall(projectID, x.id)]);
    assert res == UpdateStoryStep(t0, {}, host, b.url, projectID, x.id);
    FoundStoryComments(t.stories, t.nextID, name, x);
    if HasText(x.comments, text) {
      assert res == (t1, Pass);
    } else {
      var w := WithComment(t.stories, x.id, text);
      assert res == (TrackerState(w, t.nextID, t1.log + [AddCommentCall(projectID, x.id, text)]), Pass);
      WithCommentKeepsValid(t.stories, t.nextID, x.id, text);
      QueryWithComment(t.stories, x.id, text, BrokenBuilds);
      FindWithComment(name, Query(t.stories, BrokenBuilds), x.id, text);
      CommentsOfWithComment(t.stories, x.id, text);
    }
  }

  /**
   * A pass over the URLs of two failed builds is the handling of one after
   * the other, whether or not the second handling succeeds.
   */
  lemma TwoFailedBuilds(t: TrackerState, failing: set<Op>, rules: seq<Rule>, matcher: (string, string) -> MatchResult,
                        fetch: string -> Option<Build>, u1: string, u2: string, b1: Build, b2: Build,
                        host: string, projectID: int)
    requires fetch(u1) == Some(b1) && fetch(u2) == Some(b2) && b1.status == "failed" && b2.status == "failed"
    requires HandleFailedBuildStep(t, failing, rules, matcher, b1, host, projectID).1 == Pass
    ensures ProcessURLsStep(t, failing, rules, matcher, fetch, [u1, u2], host, projectID)
         == HandleFailedBuildStep(HandleFailedBuildStep(t, failing, rules, matcher, b1, host, projectID).0,
                                  failing, rules, matcher, b2, host, projectID)
  {
    var t1 := HandleFailedBuildStep(t, failing, rules, matcher, b1, host, projectID).0;
    assert [u1, u2][1..] == [u2] && [u2][1..] == [];
    assert ProcessURLsStep(t1, failing, rules, matcher, fetch, [u2], host, projectID)
        == HandleFailedBuildStep(t1, failing, rules, matcher, b2, host, projectID);
  }

  /** A one-comment list gains a second text unless that text is the one already there. */
  lemma OneCommentOrTwo(c1: string, c2: string)
    ensures (if HasText([Comment(c1)], c2) then [Comment(c1)] else [Comment(c1)] + [Comment(c2)])
         == if c1 == c2 then [Comment(c1)] else [Comment(c1), Comment(c2)]
  {
    assert HasText([Comment(c1)], c2) <==> [Comment(c1)][0].text == c2;
  }

  /**
   * updateStory on a story whose only comment reports a first build: the
   * second build's URL is added after it, unless it is the same URL.
   */
  lemma SecondComment(t: TrackerState, host: string, url1: string, url2: string, projectID: int, id: int)
    requires HasStory(t.stories, id) && CommentsOf(t.stories, id) == [Comment(CommentText(host, url1))]
    ensures var (t1, r) := UpdateStoryStep(t, {}, host, url2, projectID, id);
            var c1, c2 := CommentText(host, url1), CommentText(host, url2);
            && r == Pass && HasStory(t1.stories, id)
            && CommentsOf(t1.stories, id) == if c1 == c2 then [Comment(c1)] else [Comment(c1), Comment(c2)]
  {
    var c1, c2 := CommentText(host, url1), CommentText(host, url2);
    var res := UpdateStoryStep(t, {}, host, url2, projectID, id);
    var tl := t.(log := t.log + [ListCommentsCall(projectID, id)]);
    OneCommentOrTwo(c1, c2);
    if c1 == c2 {
      assert HasText([Comment(c1)], c2) by { assert [Comment(c1)][0].text == c2; }
      assert res == (tl, Pass);
    } else {
      assert !HasText([Comment(c1)], c2);
      assert res.0.stories == WithComment(t.stories, id, c2) && res.1 == Pass;
      CommentsOfWithComment(t.stories, id, c2);
    }
  }

  /**
   * Two failed builds of one incident with no open story: the pass files
   * one story, whose comments are the two builds' URLs in URL order (one
   * when both builds have the same URL).
   */
  lemma GroupedFailuresShareOneStory(t: TrackerState, rules: seq<Rule>, matcher: (string, string) -> MatchResult,
                                     fetch: string -> Option<Build>, u1: string, u2: string, b1: Build, b2: Build,
                                     host: string, projectID: int)
    requires ValidStories(t.stories, t.nextID)
    requires fetch(u1) == Some(b1) && fetch(u2) == Some(b2) && b1.status == "failed" && b2.status == "failed"
    requires StoryName(b1, rules, matcher) == StoryName(b2, rules, matcher)
    requires FindExistingStory(StoryName(b1, rules, matcher), Query(t.stories, BrokenBuilds)).None?
    requires Query(t.stories, TopOfBacklog) != []
    ensures var (t2, r) := ProcessURLsStep(t, {}, rules, matcher, fetch, [u1, u2], host, projectID);
            var c1, c2 := CommentText(host, b1.url), CommentText(host, b2.url);
            && r == Pass
            && |t2.stories| == |t.stories| + 1 && t2.nextID == t.nextID + 1
            && HasStory(t2.stories, t.nextID)
            && CommentsOf(t2.stories, t.nextID) == if c1 == c2 then [Comment(c1)] else [Comment(c1), Comment(c2)]
  {
    var name := StoryName(b1, rules, matcher);
    var t1 := HandleFailedBuildStep(t, {}, rules, matcher, b1, host, projectID).0;
    NewIncidentIsFiled(t, rules, matcher, b1, host, projectID);
    var x := FindExistingStory(name, Query(t1.stories, BrokenBuilds)).value;
    OpenIncidentIsCommented(t1, rules, matcher, b2, host, projectID, x);
    OneCommentOrTwo(CommentText(host, b1.url), CommentText(host, b2.url));
    TwoFailedBuilds(t, {}, rules, matcher, fetch, u1, u2, b1, b2, host, projectID);
  }

  /*
   * Groom: the passes one after another.
   */

  /** A pass keeps story identifiers distinct and below the next free one, and only appends to the call log. */
  lemma {:induction false} ProcessURLsKeepsValid(t: TrackerState, failing: set<Op>, rules: seq<Rule>,
                                                 matcher: (string, string) -> MatchResult, fetch: string -> Option<Build>,
                                                 urls: seq<string>, host: string, projectID: int)
    requires ValidStories(t.stories, t.nextID)
    ensures var t1 := ProcessURLsStep(t, failing, rules, matcher, fetch, urls, host, projectID).0;
            ValidStories(t1.stories, t1.nextID) && t.log <= t1.log
    decreases |urls|
  {
    if urls != [] {
      match fetch(urls[0])
      case None =>
      case Some(b) =>
        if b.status != "failed" {
          ProcessURLsKeepsValid(t, failing, rules, matcher, fetch, urls[1..], host, projectID);
        } else {
          var (t1, handled) := HandleFailedBuildStep(t, failing, rules, matcher, b, host, projectID);
          HandleFailedBuildKeepsValid(t, failing, rules, matcher, b, host, projectID);
          if handled.Pass? {
            ProcessURLsKeepsValid(t1, failing, rules, matcher, fetch, urls[1..], host, projectID);
          }
        }
    }
  }

  /** Any number of passes keeps story identifiers distinct and below the next free one, and only appends to the log. */
  lemma {:induction false} GroomKeepsValid(t: TrackerState, failing: set<Op>, rules: seq<Rule>,
                                           matcher: (string, string) -> MatchResult, host: string, team: string,
                                           projectID: int, pipelinesAt: nat -> Concourse.Fetched,
                                           fetchAt: (nat, string) -> Option<Build>, k: nat)
    requires ValidStories(t.stories, t.nextID)
    ensures var t1 := GroomStep(t, PollPass(failing, rules, matcher, host, team, projectID, pipelinesAt, fetchAt), k).0;
            ValidStories(t1.stories, t1.nextID) && t.log <= t1.log
  {
    if k > 0 {
      var pass := PollPass(failing, rules, matcher, host, team, projectID, pipelinesAt, fetchAt);
      GroomKeepsValid(t, failing, rules, matcher, host, team, projectID, pipelinesAt, fetchAt, k - 1);
      var (t1, crashed, ran) := GroomStep(t, pass, k - 1);
      if !crashed {
        var fetch, urls := PassFetch(fetchAt, k - 1), PassURLs(host, team, pipelinesAt(k - 1));
        assert pass(t1, k - 1) == ProcessURLsStep(t1, failing, rules, matcher, fetch, urls, host, projectID);
        ProcessURLsKeepsValid(t1, failing, rules, matcher, fetch, urls, host, projectID);
      }
    }
  }

  /** After a panic no further pass runs: the tracker stays as the panicking pass left it. */
  lemma {:induction false} PanicEndsGrooming(t: TrackerState, pass: (TrackerState, nat) -> (TrackerState, Outcome), k: nat, m: nat)
    requires k <= m && GroomStep(t, pass, k).1
    ensures GroomStep(t, pass, m) == GroomStep(t, pass, k)
    decreases m
  {
    if k < m {
      PanicEndsGrooming(t, pass, k, m - 1);
    }
  }

  /** A pass whose job listing fails checks no URL: the tracker is left as it was and the loop goes on. */
  lemma ListingFailureSkipsPass(t: TrackerState, failing: set<Op>, rules: seq<Rule>,
                                matcher: (string, string) -> MatchResult, host: string, team: string,
                                projectID: int, pipelinesAt: nat -> Concourse.Fetched,
                                fetchAt: (nat, string) -> Option<Build>, k: nat)
    requires pipelinesAt(k).FetchError?
    requires !GroomStep(t, PollPass(failing, rules, matcher, host, team, projectID, pipelinesAt, fetchAt), k).1
    ensures var pass := PollPass(failing, rules, matcher, host, team, projectID, pipelinesAt, fetchAt);
            var (tk, _, n) := GroomStep(t, pass, k);
            GroomStep(t, pass, k + 1) == (tk, false, n + 1)
  {
  }
}
