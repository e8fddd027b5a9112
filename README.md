# concourse-tracker-bot, modelled in Dafny

The bot watches a CI server and keeps an issue tracker's backlog in step
with it. It does this in passes. Each pass lists the URL of every job of
every pipeline that is not paused. It fetches each job's finished build.
For every build whose status is `failed`, it works out the name of the
incident the build belongs to. It uses a table of grouping patterns to
do this: the first pattern that matches `<pipeline>-<job>` wins, and
otherwise the name is `<pipeline>/<job> has <status>`. Then it looks
for an open "broken build" story with that name. If there is one, the
build's URL is added to that story as a comment, unless a comment with
that text is already there. If there is none, a new unstarted chore is
filed just before the top story of the backlog, with the build's URL as
its first comment. The grouping table comes from a configuration that
maps each group to a list of patterns. Each group's patterns are joined
into one alternation pattern, `(p1)|(p2)|…`.

The project has five modules and three proof modules:

- `Tracker` (`tracker.dfy`) holds the Story, Comment and Label records
  and the two story searches the groomer sends. It also holds
  `FakeTracker`, an in-memory tracker project. The fake answers the four
  calls of the groomer's `TrackerClient` interface, records every call it
  receives, and can be told to fail any of them. Each of its methods is
  proved against a pure transition of a `TrackerState` value.
- `StatusGroomer` (`status_groomer.dfy`) holds the incident naming, the
  story lookup, `updateStory`, `createStory`, `handleFailedBuild`,
  `processURLs` and the polling loop `Groom`. Each method is proved
  against a `…Step` function, a transition of the tracker's state.
  `GroomerProofs` (`groomer_proofs.dfy`) proves what those transitions
  promise.
- `Concourse` (`concourse.dfy`) holds the job-URL listing, from the point
  where the pipeline listing has been decoded. `ConcourseProofs` proves
  what the listing contains.
- `Parser` (`parser.dfy`) holds `makeGroupRegex` and `Parse`.
  `ParserProofs` proves what they produce.
- `Wrappers` (`wrappers.dfy`) holds `Option`.

Matching a pattern is a parameter `matcher`. It answers `Matched`,
`NoMatch` or `MatchError`, and an error counts as no match, as in the
source. Fetching and decoding a build is a parameter `fetch` that returns
`None` when either fails. The pipeline listing of each pass is a
parameter `pipelinesAt`.

The model follows what the code does, including these cases where the
behaviour may surprise a reader:

- A pass stops at the first error: a URL that cannot be fetched or
  decoded, or a tracker call that fails. It does not go on to the next
  URL (status_groomer/status_groomer.go:139-152). `Groom` only logs the
  error and starts the next pass.
- When the top-of-backlog search returns no story, `createStory` indexes
  an empty slice and the Go runtime panics
  (status_groomer/status_groomer.go:66). This is not an error that the
  reconciliation returns. The model returns `Fail(IndexOutOfRange)`, and
  `Groom` stops with `crashed` set.
- `updateStory` does not look at the error that ListComments returns
  (status_groomer/status_groomer.go:43) and goes on to search the
  comments it got back. The model assumes that a failing ListComments
  returns no comments along with its error, so the comment is added
  again even when it is already there. The lemma
  `ListCommentsFailureRepeatsComment` shows this. A client that returns
  comments together with an error is not modelled.
- The grouping table is a Go map. Go iterates maps in a random order, so
  when several patterns match, which one names the incident is not
  defined. The model takes the rules as a sequence and the first match
  wins. This fixes one of the orders the source allows.

## Model

| member | source | states |
|---|---|---|
| Tracker.Query | status_groomer/status_groomer.go:109 | a search returns exactly the stories its filter selects, never more stories than the project holds |
| Tracker.WithComment | tracker/client.go:100-124 | adding a comment appends it to that story's comments; every other story and the story order stay the same |
| Tracker.InsertionPoint | tracker/client.go:69-98 | a story filed before `beforeID` goes at that story's position, or last when no story has that identifier |
| Tracker.InsertedKeepsValid | tracker/client.go:69-98 | filing a story under a fresh identifier keeps story identifiers distinct and below the next free one |
| Tracker.FakeTracker.constructor | status_groomer/status_groomer.go:24-29 | a tracker starts with the given stories, an empty call log and a fixed set of calls that fail |
| Tracker.FakeTracker.Stories | status_groomer/status_groomer.go:25 | Stories logs the call, then either fails or returns the filter's search result; no story changes |
| Tracker.FakeTracker.CreateStory | status_groomer/status_groomer.go:26 | CreateStory logs the call, then either fails, or files the input under the next identifier before `beforeID` and returns it |
| Tracker.FakeTracker.ListComments | status_groomer/status_groomer.go:27 | ListComments logs the call, then fails, reports an unknown story, or returns that story's comments; no story changes |
| Tracker.FakeTracker.AddComment | status_groomer/status_groomer.go:28 | AddComment logs the call, then fails, reports an unknown story, or appends the comment to that story only |
| StatusGroomer.StoryName | status_groomer/status_groomer.go:97-105 | the name is `<group> has failed` for the first rule whose pattern matches `<pipeline>-<job>`; it is `<pipeline>/<job> has <status>` when no rule matches; a pattern that fails to evaluate counts as no match |
| StatusGroomer.FindExistingStory | status_groomer/status_groomer.go:88-95 | the result is None exactly when no story has that name; otherwise it is the first story with that name |
| StatusGroomer.UpdateStory | status_groomer/status_groomer.go:40-56 | the loop over the listed comments returns early on a comment with the build's text; otherwise AddComment is called and its error is returned |
| StatusGroomer.CreateStory | status_groomer/status_groomer.go:58-86 | searches the top of the backlog, panics on an empty result, and otherwise files the chore before its first story; each tracker error is returned |
| StatusGroomer.HandleFailedBuild | status_groomer/status_groomer.go:107-132 | searches open broken-build stories, then comments on the story with the incident's name, or files a new one when there is none |
| StatusGroomer.ProcessURLs | status_groomer/status_groomer.go:134-156 | handles, in URL order, every build whose status is `failed`, skips the others, and stops at the first fetch or handling failure |
| StatusGroomer.Groom | status_groomer/status_groomer.go:158-180 | the tracker's new state, the panic flag and the pass count are those of GroomStep over the source's passes: pass k processes the job URLs listed by `pipelinesAt(k)` (none when the listing failed) with the builds of `fetchAt(k, ·)`; exactly `maxIterations + 1` passes run when `0 <= maxIterations < fuel`, and `fuel` passes otherwise (a negative `maxIterations`, or one the fuel does not reach); a panic ends the loop after at least one pass |
| StatusGroomer.GroomPass | status_groomer/status_groomer.go:161-171 | one pass lists the job URLs, ignoring a listing error with its empty list, and processes them; the tracker's new state and the pass's panic are GroomStep's one pass further |
| GroomerProofs.QueryWithComment | status_groomer/status_groomer.go:109-117 | a comment does not change which stories a search returns, only their comments |
| GroomerProofs.FindWithComment | status_groomer/status_groomer.go:88-95 | a comment does not change which story a name finds |
| GroomerProofs.CommentsOfWithComment | status_groomer/status_groomer.go:51 | after AddComment the story's comments are the old ones followed by the new one |
| GroomerProofs.FoundAfterInsert | status_groomer/status_groomer.go:68-79 | a chore filed under a name that no open story has is the story that name finds on the next search |
| GroomerProofs.NonMatchingRuleIsSkipped | status_groomer/status_groomer.go:98-103 | removing a rule that does not match, or whose pattern fails to evaluate, never changes the name |
| GroomerProofs.LaterRulesIgnored | status_groomer/status_groomer.go:98-103 | rules added after a matching rule never change the name |
| GroomerProofs.HandleFailedBuildKeepsValid | status_groomer/status_groomer.go:107-132 | handling a build keeps story identifiers distinct and only appends to the call log |
| GroomerProofs.UpdateStoryKeepsValid | status_groomer/status_groomer.go:40-56 | updateStory keeps story identifiers distinct and below the next free one, and only appends to the call log |
| GroomerProofs.CreateStoryKeepsValid | status_groomer/status_groomer.go:58-86 | createStory keeps story identifiers distinct and below the next free one, and only appends to the call log |
| GroomerProofs.ReportedBuildIsLeftAlone | status_groomer/status_groomer.go:40-48 | handling a build whose URL is already on the incident's story changes no story and makes only read calls, when ListComments answers |
| GroomerProofs.FoundStoryComments | status_groomer/status_groomer.go:117-120 | the story a name finds is one of the project's, and its listed comments are its own |
| GroomerProofs.CommentMakesReported | status_groomer/status_groomer.go:51 | after the comment is added, the incident's story carries the build's URL |
| GroomerProofs.CommentingReports | status_groomer/status_groomer.go:40-56 | a successful updateStory leaves the build's URL on the incident's story, whether or not ListComments answered |
| GroomerProofs.FilingReports | status_groomer/status_groomer.go:58-86 | a successful createStory leaves the build's URL on the story the incident's name finds |
| GroomerProofs.HandlingReports | status_groomer/status_groomer.go:107-132 | a successful handling leaves the build reported under its incident, whichever tracker calls failed on the way, ListComments included |
| GroomerProofs.HandleFailedBuildIdempotent | status_groomer/status_groomer.go:107-132 | when ListComments answers, handling the same failed build again after a success changes no story and makes only read calls; a build is reported once |
| GroomerProofs.OccurrencesHasText | status_groomer/status_groomer.go:44-48 | a text occurs in the comments at least once exactly when some comment has that text |
| GroomerProofs.UpdateStoryCommentsOnlyWhenNew | status_groomer/status_groomer.go:40-56 | when ListComments answers, the build's URL ends up once on the story if it was missing, no more often than before if it was there, and no other story changes |
| GroomerProofs.ListCommentsFailureRepeatsComment | status_groomer/status_groomer.go:43-51 | when ListComments fails and AddComment does not, the URL is added one more time even if the story has it |
| GroomerProofs.InsertedBefore | tracker/client.go:69-98 | a story filed before the story with a given identifier sits immediately in front of that story, and nothing else moves |
| GroomerProofs.FiledChore | status_groomer/status_groomer.go:58-86 | a successful createStory files exactly one unstarted chore, labelled "broken build", named after the incident, with the build's URL as its only comment, placed immediately before the top story of the backlog |
| GroomerProofs.CreateStoryFailures | status_groomer/status_groomer.go:62-82 | a failed createStory files nothing; a failed search returns its error; an empty search panics before CreateStory is called; a failed CreateStory returns its error |
| GroomerProofs.UpdateStoryCalls | status_groomer/status_groomer.go:40-56 | updateStory lists the story's comments and then adds at most the build's comment; it files nothing |
| GroomerProofs.CreateStoryCalls | status_groomer/status_groomer.go:58-86 | createStory searches the top of the backlog and then makes at most one CreateStory call; it lists and adds no comment |
| GroomerProofs.FailedSearchChangesNothing | status_groomer/status_groomer.go:109-112 | when the broken-build search fails, only that search is logged and its error is returned; no story changes |
| GroomerProofs.OpenStoryTakesCommentPath | status_groomer/status_groomer.go:117-125 | when the incident has an open story, the search is followed by listing that story's comments and at most one comment on it; nothing is filed |
| GroomerProofs.NoOpenStoryTakesCreatePath | status_groomer/status_groomer.go:127-131 | when no open story has the incident's name, the search is followed by the top-of-backlog search and at most one CreateStory call; no comment is listed or added |
| GroomerProofs.PassIgnoresOtherStatuses | status_groomer/status_groomer.go:148 | a pass over builds none of which failed makes no tracker call |
| GroomerProofs.PassSplits | status_groomer/status_groomer.go:135-155 | a pass over `a + b` is the pass over `a` followed, unless it failed, by the pass over `b` |
| GroomerProofs.PassStopsAtFetchFailure | status_groomer/status_groomer.go:138-146 | a URL that cannot be fetched or decoded ends the pass, and nothing after it is handled |
| GroomerProofs.NewIncidentIsFiled | status_groomer/status_groomer.go:127-131 | when every tracker call answers and the top-of-backlog search returns a story, a failed build of an incident with no open story files one story; that story is the one the incident's name finds, with the build's URL as its only comment |
| GroomerProofs.ChoreFiled | status_groomer/status_groomer.go:68-79 | filing a new incident's chore under the next free identifier adds exactly one story, keeps identifiers distinct, and makes the chore, with its own comments, the story the incident's name finds |
| GroomerProofs.OpenIncidentIsCommented | status_groomer/status_groomer.go:117-125 | when every tracker call answers, a failed build of an incident with an open story appends its URL to that story unless the URL is already there; no story is filed |
| GroomerProofs.TwoFailedBuilds | status_groomer/status_groomer.go:135-155 | a pass over two failed builds whose first handling succeeds handles the first and then the second, and ends as the second handling ends |
| GroomerProofs.SecondComment | status_groomer/status_groomer.go:40-56 | when every tracker call answers, updateStory on a story whose only comment is a first build's URL succeeds and leaves the comments as that URL followed by the second build's, or as the one URL when the two are the same |
| GroomerProofs.GroupedFailuresShareOneStory | status_groomer/status_groomer.go:134-156 | when every tracker call answers and the top-of-backlog search returns a story, in one pass two failed builds of one new incident share one filed story, commented in URL order, once if the URLs are equal |
| GroomerProofs.ProcessURLsKeepsValid | status_groomer/status_groomer.go:134-156 | a pass keeps story identifiers distinct and below the next free one, and only appends to the call log |
| GroomerProofs.GroomKeepsValid | status_groomer/status_groomer.go:158-180 | any number of passes keep story identifiers distinct and below the next free one, and only append to the call log |
| GroomerProofs.PanicEndsGrooming | status_groomer/status_groomer.go:158-180 | once a pass has panicked, later passes change nothing: the tracker state and pass count stay those at the panic |
| GroomerProofs.ListingFailureSkipsPass | status_groomer/status_groomer.go:162-171 | a pass whose pipeline listing fails processes no URL: it makes no tracker call, changes nothing and does not panic |
| Concourse.GetJobURLs | concourse/jobs.go:21-48 | a failed fetch or decode gives an empty list and the error; otherwise every job of every group of every pipeline that is not paused, in listing order |
| Concourse.AppendGroups | concourse/jobs.go:38-44 | the two inner loops append one URL per job, group after group |
| Concourse.AppendJobs | concourse/jobs.go:39-43 | the innermost loop appends one URL per job of the group, in job order |
| Concourse.JobsURLsSnoc | concourse/jobs.go:39-42 | one more job appends exactly its URL |
| Concourse.GroupsURLsSnoc | concourse/jobs.go:38-44 | one more group appends exactly its jobs' URLs |
| Concourse.AllJobURLsSnoc | concourse/jobs.go:33-45 | one more pipeline appends exactly its URLs, none when it is paused |
| ConcourseProofs.JobsURLsAt | concourse/jobs.go:39-42 | a group's URLs are its jobs' URLs, one each, in job order |
| ConcourseProofs.AllJobURLsAppend | concourse/jobs.go:33-45 | listing pipelines one after another lists their URLs one after another |
| ConcourseProofs.GroupsURLsAppend | concourse/jobs.go:38-44 | listing groups one after another lists their URLs one after another |
| ConcourseProofs.PausedContributeNothing | concourse/jobs.go:34-36 | dropping the paused pipelines does not change the listing |
| ConcourseProofs.GroupsURLsCount | concourse/jobs.go:38-44 | a pipeline lists exactly as many URLs as its groups have jobs |
| ConcourseProofs.AllJobURLsCount | concourse/jobs.go:33-45 | the listing has exactly one URL per job of every pipeline that is not paused; nothing is removed as a duplicate |
| ConcourseProofs.ListedJobHasURL | concourse/jobs.go:33-45 | every job of a pipeline that is not paused has its URL in the listing |
| ConcourseProofs.URLIsOfListedJob | concourse/jobs.go:33-45 | every URL in the listing is the URL of a job of a pipeline that is not paused |
| ConcourseProofs.URLInGroups | concourse/jobs.go:38-44 | every URL a pipeline lists belongs to a job of one of its groups |
| ConcourseProofs.TestListing | concourse/jobs_test.go:73-96 | the three pipelines of the test list p1's four jobs and p2's two, in order, and nothing of the paused p3 |
| Parser.WrapAll | parser/parser.go:9-12 | each pattern is wrapped as `(p)`, in list order |
| Parser.MakeGroupRegex | parser/parser.go:8-15 | the result is the group's patterns, each wrapped in parentheses, joined by a vertical bar |
| Parser.Parse | parser/parser.go:17-24 | every key is the combined pattern of the group it maps to, every group's combined pattern is a key, and there are no more keys than groups |
| ParserProofs.SinglePattern | parser/parser.go:8-15 | a group with one pattern compiles to that pattern in parentheses, with no separator |
| ParserProofs.GroupRegexCons | parser/parser.go:8-15 | the first pattern is wrapped and, when more follow, separated from them by a vertical bar |
| ParserProofs.GroupRegexAppend | parser/parser.go:8-15 | the combined pattern of two non-empty lists is their combined patterns joined by a vertical bar |
| ParserProofs.GroupRegexLength | parser/parser.go:8-15 | the combined pattern adds two characters per pattern and one separator between each two patterns |
| ParserProofs.TwoPatterns | parser/parser_test.go:14-23 | the test's two-pattern group compiles to its two wrapped patterns joined by a vertical bar |
| ParserProofs.DistinctValuesCount | parser/parser.go:20-22 | a map whose values are distinct has as many values as keys |
| ParserProofs.OutputGroupsDistinct | parser/parser.go:17-24 | every output value is an input group, and different combined patterns map to different groups |
| ParserProofs.SameKeys | parser/parser.go:17-24 | whatever the iteration order, the output's keys are exactly the groups' combined patterns |
| ParserProofs.EveryGroupIsAValue | parser/parser.go:20-22 | when no two groups share a combined pattern, every group is some key's value |
| ParserProofs.ParseDetermined | parser/parser.go:17-24 | when no two groups share a combined pattern, the output does not depend on iteration order and has one key per group |
| ParserProofs.CollisionLosesAGroup | parser/parser.go:20-22 | when two groups share a combined pattern, one of them is lost from the output, which then has fewer keys than there are groups |
| ParserProofs.ParseTestTable | parser/parser_test.go:14-25 | the test's table compiles to exactly the expected table |
| ParserProofs.TestTableHasNoCollision | parser/parser_test.go:14-25 | the two groups of the test compile to different combined patterns |
| ParserProofs.TestTableExpected | parser/parser_test.go:14-25 | the expected table maps each test group's combined pattern to that group, and nothing else |

## Left out

- HTTP and JSON: fetching the pipeline listing and each job's build, and decoding them, are out of the model. GetJobURLs takes the listing as fetched and decoded, or the error. ProcessURLs takes `fetch`, which returns None when fetching or decoding fails. The error messages themselves are not modelled.
- The regular-expression engine: patterns are matched by the `matcher` parameter. Its three answers cover the source's `err == nil && matched` test.
- Go's random map order in getStoryName: the rules are an ordered sequence, and the first match wins.
- Go's random map order in Parse: the model chooses the next group without fixing which one, so every order is covered.
- The tracker's HTTP transport, its authentication and its search language (tracker/client.go:34-124). The in-memory tracker interprets exactly the two filters the groomer sends. Its failures are a fixed set of calls that always fail, not transient errors.
- ListComments is declared by the TrackerClient interface (status_groomer/status_groomer.go:27), but tracker/client.go has no method for it. The in-memory tracker answers it from the stories it holds.
- Logging, the five-minute sleep between passes, main.go and command-line parsing: none of them affect the tracker's state.
- Groom: the source loops forever when `maxIterations` is negative. The model bounds the loop by a `fuel` parameter, so it states what the first `fuel` passes do and not what an endless run does. The fuel also caps a non-negative `maxIterations`: when `fuel <= maxIterations` the model runs `fuel` passes where the source runs `maxIterations + 1`.
- GroomPass: the source's Groom lists the URLs through a `ConcourseClient` interface (status_groomer/status_groomer.go:31-33, 162). The model binds it to GetJobURLs, which returns no URL along with its error (concourse/jobs.go:24, 29), so a pass whose listing fails processes nothing. A client that returns URLs together with an error, which the source's Groom would go on to process, is not modelled.
- Groom: a panic ends the whole program in the source. The model ends the loop and returns `crashed`.
- Concurrency: the source has none in the modelled code, and other clients changing the tracker between calls are not modelled.
- Integer widths: story identifiers and project identifiers are unbounded integers. Go's `int` is at least 32 bits wide, 64 on 64-bit platforms, and identifiers are assumed to stay below that bound.
