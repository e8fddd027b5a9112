/**
 * The issue tracker as the groomer sees it through its TrackerClient
 * interface: the Story, Comment and Label records, and an in-memory
 * tracker that answers the four client calls (Stories, CreateStory,
 * ListComments, AddComment) and records every call it receives.
 */
module Tracker {
  import opened Wrappers

  datatype Label = Label(name: string)

  datatype Comment = Comment(text: string)

  /** One story of the tracker project; its comments are kept with it. */
  datatype Story = Story(
    name: string,
    id: int,
    currentState: string,
    labels: seq<Label>,
    storyType: string,
    beforeID: int,
    comments: seq<Comment>)

  /**
   * The two search filters the groomer sends to Stories:
   * BrokenBuilds is `-state:accepted label:"broken build"`,
   * TopOfBacklog is `-type:release state:unstarted`.
   */
  datatype Filter = BrokenBuilds | TopOfBacklog

  /** The label the groomer puts on every story it files. */
  const BrokenBuildLabel: Label := Label("broken build")

  /** Whether the tracker's search with filter `f` returns story `s`. */
  predicate Selects(f: Filter, s: Story)
  {
    match f
    case BrokenBuilds => s.currentState != "accepted" && BrokenBuildLabel in s.labels
    case TopOfBacklog => s.storyType != "release" && s.currentState == "unstarted"
  }

  /** The stories a search returns: those the filter selects, in backlog order. */
  function Query(stories: seq<Story>, f: Filter): (r: seq<Story>)
    ensures |r| <= |stories|
    ensures forall s :: s in r <==> s in stories && Selects(f, s)
  {
    if stories == [] then []
    else (if Selects(f, stories[0]) then [stories[0]] else []) + Query(stories[1..], f)
  }

  predicate HasStory(stories: seq<Story>, id: int)
  {
    exists i :: 0 <= i < |stories| && stories[i].id == id
  }

  /** Story identifiers are distinct and all below the next one to hand out. */
  ghost predicate ValidStories(stories: seq<Story>, nextID: int)
  {
    && (forall i, j :: 0 <= i < j < |stories| ==> stories[i].id != stories[j].id)
    && (forall i :: 0 <= i < |stories| ==> stories[i].id < nextID)
  }

  /** The comments of the story with identifier `id`. */
  function CommentsOf(stories: seq<Story>, id: int): seq<Comment>
    requires HasStory(stories, id)
  {
    if stories[0].id == id then stories[0].comments else CommentsOf(stories[1..], id)
  }

  /** The stories after comment `text` is added to the story with identifier `id`. */
  function WithComment(stories: seq<Story>, id: int, text: string): (r: seq<Story>)
    ensures |r| == |stories|
    ensures forall i :: 0 <= i < |stories| ==>
      r[i] == if stories[i].id == id
              then stories[i].(comments := stories[i].comments + [Comment(text)])
              else stories[i]
  {
    if stories == [] then []
    else
      var s := stories[0];
      [if s.id == id then s.(comments := s.comments + [Comment(text)]) else s]
        + WithComment(stories[1..], id, text)
  }

  /** Where a story filed before `beforeID` goes: that story's index, or the end. */
  function InsertionPoint(stories: seq<Story>, beforeID: int): (k: nat)
    ensures k <= |stories|
    ensures k < |stories| ==> stories[k].id == beforeID
    ensures forall j :: 0 <= j < k ==> stories[j].id != beforeID
  {
    if stories == [] || stories[0].id == beforeID then 0
    else 1 + InsertionPoint(stories[1..], beforeID)
  }

  /**
   * The stories after `s` is filed: it is placed immediately before the
   * story whose identifier is `beforeID`, or last when there is none.
   */
  function Inserted(stories: seq<Story>, s: Story, beforeID: int): seq<Story>
  {
    var k := InsertionPoint(stories, beforeID);
    stories[..k] + [s] + stories[k..]
  }

  /** A client call the in-memory tracker can be told to fail. */
  datatype Op = StoriesOp(filter: Filter) | CreateStoryOp | ListCommentsOp | AddCommentOp

  /** One call received by the tracker, with its arguments. */
  datatype Call =
    | StoriesCall(projectID: int, filter: Filter)
    | CreateStoryCall(projectID: int, story: Story)
    | ListCommentsCall(projectID: int, storyID: int)
    | AddCommentCall(projectID: int, storyID: int, text: string)

  /** The errors a client call returns. */
  datatype Error = Unavailable(op: Op) | StoryNotFound(storyID: int)

  datatype Result<+T> = Ok(value: T) | Err(error: Error)

  /** Everything the tracker holds: its stories, the next identifier, the calls so far. */
  datatype TrackerState = TrackerState(stories: seq<Story>, nextID: int, log: seq<Call>)

  /*
   * The four client calls as transitions of the tracker's state. An
   * operation listed in `failing` fails without touching the stories.
   */

  function StoriesOn(t: TrackerState, failing: set<Op>, projectID: int, f: Filter)
    : (res: (TrackerState, Result<seq<Story>>))
  {
    (t.(log := t.log + [StoriesCall(projectID, f)]),
     if StoriesOp(f) in failing then Err(Unavailable(StoriesOp(f))) else Ok(Query(t.stories, f)))
  }

  function CreateStoryOn(t: TrackerState, failing: set<Op>, projectID: int, input: Story)
    : (res: (TrackerState, Result<Story>))
  {
    var logged := t.log + [CreateStoryCall(projectID, input)];
    if CreateStoryOp in failing then
      (t.(log := logged), Err(Unavailable(CreateStoryOp)))
    else
      var created := input.(id := t.nextID);
      (TrackerState(Inserted(t.stories, created, input.beforeID), t.nextID + 1, logged), Ok(created))
  }

  function ListCommentsOn(t: TrackerState, failing: set<Op>, projectID: int, storyID: int)
    : (res: (TrackerState, Result<seq<Comment>>))
  {
    (t.(log := t.log + [ListCommentsCall(projectID, storyID)]),
     if ListCommentsOp in failing then Err(Unavailable(ListCommentsOp))
     else if !HasStory(t.stories, storyID) then Err(StoryNotFound(storyID))
     else Ok(CommentsOf(t.stories, storyID)))
  }

  function AddCommentOn(t: TrackerState, failing: set<Op>, projectID: int, storyID: int, text: string)
    : (res: (TrackerState, Result<()>))
  {
    var logged := t.log + [AddCommentCall(projectID, storyID, text)];
    if AddCommentOp in failing then (t.(log := logged), Err(Unavailable(AddCommentOp)))
    else if !HasStory(t.stories, storyID) then (t.(log := logged), Err(StoryNotFound(storyID)))
    else (TrackerState(WithComment(t.stories, storyID, text), t.nextID, logged), Ok(()))
  }

  /** An in-memory tracker project standing in for the remote one. */
  class FakeTracker {
    var stories: seq<Story>
    var nextID: int
    var log: seq<Call>
    const failing: set<Op>

    ghost predicate Valid()
      reads this
    {
      ValidStories(stories, nextID)
    }

    function Current(): TrackerState
      reads this
    {
      TrackerState(stories, nextID, log)
    }

    constructor (initial: seq<Story>, firstFreeID: int, failing: set<Op>)
      requires ValidStories(initial, firstFreeID)
      ensures Valid()
      ensures Current() == TrackerState(initial, firstFreeID, []) && this.failing == failing
    {
      stories := initial;
      nextID := firstFreeID;
      log := [];
      this.failing := failing;
    }

    method Stories(projectID: int, filter: Filter) returns (r: Result<seq<Story>>)
      modifies this`log
      ensures (Current(), r) == StoriesOn(old(Current()), failing, projectID, filter)
    {
      log := log + [StoriesCall(projectID, filter)];
      if StoriesOp(filter) in failing {
        return Err(Unavailable(StoriesOp(filter)));
      }
      r := Ok(Query(stories, filter));
    }

    method CreateStory(projectID: int, input: Story) returns (r: Result<Story>)
      requires Valid()
      modifies this
      ensures Valid()
      ensures (Current(), r) == CreateStoryOn(old(Current()), failing, projectID, input)
    {
      log := log + [CreateStoryCall(projectID, input)];
      if CreateStoryOp in failing {
        return Err(Unavailable(CreateStoryOp));
      }
      var created := input.(id := nextID);
      InsertedKeepsValid(stories, nextID, created, input.beforeID);
      stories := Inserted(stories, created, input.beforeID);
      nextID := nextID + 1;
      r := Ok(created);
    }

    method ListComments(projectID: int, storyID: int) returns (r: Result<seq<Comment>>)
      modifies this`log
      ensures (Current(), r) == ListCommentsOn(old(Current()), failing, projectID, storyID)
    {
      log := log + [ListCommentsCall(projectID, storyID)];
      if ListCommentsOp in failing {
        return Err(Unavailable(ListCommentsOp));
      }
      if !HasStory(stories, storyID) {
        return Err(StoryNotFound(storyID));
      }
      r := Ok(CommentsOf(stories, storyID));
    }

    method AddComment(projectID: int, storyID: int, text: string) returns (r: Result<()>)
      requires Valid()
      modifies this`stories, this`log
      ensures Valid()
      ensures (Current(), r) == AddCommentOn(old(Current()), failing, projectID, storyID, text)
    {
      log := log + [AddCommentCall(projectID, storyID, text)];
      if AddCommentOp in failing {
        return Err(Unavailable(AddCommentOp));
      }
      if !HasStory(stories, storyID) {
        return Err(StoryNotFound(storyID));
      }
      stories := WithComment(stories, storyID, text);
      r := Ok(());
    }
  }

  /** Filing a story under the next free identifier keeps identifiers distinct. */
  lemma InsertedKeepsValid(stories: seq<Story>, nextID: int, s: Story, beforeID: int)
    requires ValidStories(stories, nextID) && s.id == nextID
    ensures ValidStories(Inserted(stories, s, beforeID), nextID + 1)
  {
    var k := InsertionPoint(stories, beforeID);
    var r := Inserted(stories, s, beforeID);
    assert forall i :: 0 <= i < |r| ==> r[i] == if i < k then stories[i] else if i == k then s else stories[i - 1];
  }
}
