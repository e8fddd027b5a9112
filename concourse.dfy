/** The CI server's pipeline listing and the job URLs built from it. */
module Concourse {
  import opened Wrappers

  datatype Group = Group(name: string, jobs: seq<string>)

  datatype Pipeline = Pipeline(name: string, url: string, paused: bool, groups: seq<Group>)

  /** The pipeline listing as fetched and decoded, or why that failed. */
  datatype Fetched = Decoded(pipelines: seq<Pipeline>) | FetchError(message: string)

  function JobURL(host: string, team: string, pipeline: string, job: string): string
  {
    host + "/api/v1/teams/" + team + "/pipelines/" + pipeline + "/jobs/" + job
  }

  /** The URLs of `jobs` of one pipeline, in order. */
  function JobsURLs(host: string, team: string, pipeline: string, jobs: seq<string>): seq<string>
  {
    if jobs == [] then []
    else JobsURLs(host, team, pipeline, jobs[..|jobs| - 1]) + [JobURL(host, team, pipeline, jobs[|jobs| - 1])]
  }

  /** The URLs of the jobs of `groups` of one pipeline, group after group. */
  function GroupsURLs(host: string, team: string, pipeline: string, groups: seq<Group>): seq<string>
  {
    if groups == [] then []
    else GroupsURLs(host, team, pipeline, groups[..|groups| - 1]) + JobsURLs(host, team, pipeline, groups[|groups| - 1].jobs)
  }

  /** The URLs one pipeline contributes: none when it is paused. */
  function PipelineURLs(host: string, team: string, p: Pipeline): seq<string>
  {
    if p.paused then [] else GroupsURLs(host, team, p.name, p.groups)
  }

  /** The job URLs of all pipelines, pipeline after pipeline. */
  function AllJobURLs(host: string, team: string, pipelines: seq<Pipeline>): seq<string>
  {
    if pipelines == [] then []
    else AllJobURLs(host, team, pipelines[..|pipelines| - 1]) + PipelineURLs(host, team, pipelines[|pipelines| - 1])
  }

  /** GetJobURLs, from the point where the listing has been decoded. */
  method GetJobURLs(host: string, team: string, fetched: Fetched) returns (urls: seq<string>, err: Option<string>)
    ensures fetched.FetchError? ==> urls == [] && err == Some(fetched.message)
    ensures fetched.Decoded? ==> err == None && urls == AllJobURLs(host, team, fetched.pipelines)
  {
    if fetched.FetchError? {
      return [], Some(fetched.message);
    }
    var pipelines := fetched.pipelines;
    urls, err := [], None;
    for i := 0 to |pipelines|
      invariant urls == AllJobURLs(host, team, pipelines[..i])
    {
      AllJobURLsSnoc(host, team, pipelines, i);
      var pipeline := pipelines[i];
      if pipeline.paused {
        continue;
      }
      urls := AppendGroups(urls, host, team, pipeline.name, pipeline.groups);
    }
    assert pipelines[..|pipelines|] == pipelines;
  }

  lemma JobsURLsSnoc(host: string, team: string, pipeline: string, jobs: seq<string>, j: nat)
    requires j < |jobs|
    ensures JobsURLs(host, team, pipeline, jobs[..j + 1]) == JobsURLs(host, team, pipeline, jobs[..j]) + [JobURL(host, team, pipeline, jobs[j])]
  {
    assert jobs[..j + 1][..j] == jobs[..j];
  }

  lemma GroupsURLsSnoc(host: string, team: string, pipeline: string, groups: seq<Group>, g: nat)
    requires g < |groups|
    ensures GroupsURLs(host, team, pipeline, groups[..g + 1]) == GroupsURLs(host, team, pipeline, groups[..g]) + JobsURLs(host, team, pipeline, groups[g].jobs)
  {
    assert groups[..g + 1][..g] == groups[..g];
  }

  lemma AllJobURLsSnoc(host: string, team: string, pipelines: seq<Pipeline>, i: nat)
    requires i < |pipelines|
    ensures AllJobURLs(host, team, pipelines[..i + 1]) == AllJobURLs(host, team, pipelines[..i]) + PipelineURLs(host, team, pipelines[i])
  {
    assert pipelines[..i + 1][..i] == pipelines[..i];
  }

  /** The loop of GetJobURLs over the groups of one pipeline. */
  method AppendGroups(prefix: seq<string>, host: string, team: string, pipeline: string, groups: seq<Group>)
    returns (urls: seq<string>)
    ensures urls == prefix + GroupsURLs(host, team, pipeline, groups)
  {
    urls := prefix;
    for g := 0 to |groups|
      invariant urls == prefix + GroupsURLs(host, team, pipeline, groups[..g])
    {
      GroupsURLsSnoc(host, team, pipeline, groups, g);
      urls := AppendJobs(urls, host, team, pipeline, groups[g].jobs);
    }
    assert groups[..|groups|] == groups;
  }

  /** The innermost loop of GetJobURLs: one URL per job of one group, appended in order. */
  method AppendJobs(prefix: seq<string>, host: string, team: string, pipeline: string, jobs: seq<string>)
    returns (urls: seq<string>)
    ensures urls == prefix + JobsURLs(host, team, pipeline, jobs)
  {
    urls := prefix;
    for j := 0 to |jobs|
      invariant urls == prefix + JobsURLs(host, team, pipeline, jobs[..j])
    {
      JobsURLsSnoc(host, team, pipeline, jobs, j);
      urls := urls + [JobURL(host, team, pipeline, jobs[j])];
    }
    assert jobs[..|jobs|] == jobs;
  }
}

/** What the job URL listing promises: which URLs, how many, in what order. */
module ConcourseProofs {
  import opened Concourse

  /** Job `j` of group `g` of pipeline `i` is listed: all indices exist and the pipeline is not paused. */
  predicate Listed(pipelines: seq<Pipeline>, i: int, g: int, j: int)
  {
    && 0 <= i < |pipelines| && !pipelines[i].paused
    && 0 <= g < |pipelines[i].groups|
    && 0 <= j < |pipelines[i].groups[g].jobs|
  }

  /** The number of jobs over all groups of the pipelines that are not paused. */
  function ActiveJobCount(pipelines: seq<Pipeline>): nat
  {
    if pipelines == [] then 0
    else (if pipelines[0].paused then 0 else GroupJobCount(pipelines[0].groups)) + ActiveJobCount(pipelines[1..])
  }

  function GroupJobCount(groups: seq<Group>): nat
  {
    if groups == [] then 0 else |groups[0].jobs| + GroupJobCount(groups[1..])
  }

  /** The pipelines that are not paused, in order. */
  function Active(pipelines: seq<Pipeline>): seq<Pipeline>
  {
    if pipelines == [] then []
    else (if pipelines[0].paused then [] else [pipelines[0]]) + Active(pipelines[1..])
  }

  /** The URLs of a group's jobs are its jobs, one URL each, in job order. */
  lemma {:induction false} JobsURLsAt(host: string, team: string, pipeline: string, jobs: seq<string>)
    ensures |JobsURLs(host, team, pipeline, jobs)| == |jobs|
    ensures forall j :: 0 <= j < |jobs| ==> JobsURLs(host, team, pipeline, jobs)[j] == JobURL(host, team, pipeline, jobs[j])
  {
    if jobs != [] {
      var init := jobs[..|jobs| - 1];
      JobsURLsAt(host, team, pipeline, init);
      assert forall j :: 0 <= j < |init| ==> init[j] == jobs[j];
    }
  }

  /** Listing pipelines one after the other lists their URLs one after the other. */
  lemma {:induction false} AllJobURLsAppend(host: string, team: string, ps: seq<Pipeline>, qs: seq<Pipeline>)
    ensures AllJobURLs(host, team, ps + qs) == AllJobURLs(host, team, ps) + AllJobURLs(host, team, qs)
  {
    if qs == [] {
      assert ps + qs == ps;
    } else {
      var init, last := qs[..|qs| - 1], qs[|qs| - 1];
      assert AllJobURLs(host, team, ps + qs) == AllJobURLs(host, team, ps + init) + PipelineURLs(host, team, last) by {
        assert (ps + qs)[..|ps + qs| - 1] == ps + init && (ps + qs)[|ps + qs| - 1] == last;
      }
      AllJobURLsAppend(host, team, ps, init);
      assert AllJobURLs(host, team, qs) == AllJobURLs(host, team, init) + PipelineURLs(host, team, last);
    }
  }

  /** Likewise for the groups of one pipeline. */
  lemma {:induction false} GroupsURLsAppend(host: string, team: string, pipeline: string, gs: seq<Group>, hs: seq<Group>)
    ensures GroupsURLs(host, team, pipeline, gs + hs) == GroupsURLs(host, team, pipeline, gs) + GroupsURLs(host, team, pipeline, hs)
  {
    if hs == [] {
      assert gs + hs == gs;
    } else {
      var init, last := hs[..|hs| - 1], hs[|hs| - 1];
      assert GroupsURLs(host, team, pipeline, gs + hs) == GroupsURLs(host, team, pipeline, gs + init) + JobsURLs(host, team, pipeline, last.jobs) by {
        assert (gs + hs)[..|gs + hs| - 1] == gs + init && (gs + hs)[|gs + hs| - 1] == last;
      }
      GroupsURLsAppend(host, team, pipeline, gs, init);
      assert GroupsURLs(host, team, pipeline, hs) == GroupsURLs(host, team, pipeline, init) + JobsURLs(host, team, pipeline, last.jobs);
    }
  }

  /** A paused pipeline contributes nothing: the listing of the active pipelines is the whole listing. */
  lemma {:induction false} PausedContributeNothing(host: string, team: string, pipelines: seq<Pipeline>)
    ensures AllJobURLs(host, team, Active(pipelines)) == AllJobURLs(host, team, pipelines)
  {
    if pipelines != [] {
      var head := pipelines[..1];
      assert pipelines == head + pipelines[1..];
      assert head[..0] == [];
      AllJobURLsAppend(host, team, head, pipelines[1..]);
      var h := if pipelines[0].paused then [] else [pipelines[0]];
      assert Active(pipelines) == h + Active(pipelines[1..]);
      AllJobURLsAppend(host, team, h, Active(pipelines[1..]));
      if h != [] { assert h == head; assert h[..0] == []; }
      PausedContributeNothing(host, team, pipelines[1..]);
    }
  }

  lemma {:induction false} GroupsURLsCount(host: string, team: string, pipeline: string, groups: seq<Group>)
    ensures |GroupsURLs(host, team, pipeline, groups)| == GroupJobCount(groups)
  {
    if groups != [] {
      assert groups == groups[..1] + groups[1..];
      assert groups[..1][..0] == [];
      GroupsURLsAppend(host, team, pipeline, groups[..1], groups[1..]);
      JobsURLsAt(host, team, pipeline, groups[0].jobs);
      GroupsURLsCount(host, team, pipeline, groups[1..]);
    }
  }

  /** One URL per job of every group of every pipeline that is not paused; nothing is deduplicated. */
  lemma {:induction false} AllJobURLsCount(host: string, team: string, pipelines: seq<Pipeline>)
    ensures |AllJobURLs(host, team, pipelines)| == ActiveJobCount(pipelines)
  {
    if pipelines != [] {
      assert pipelines == pipelines[..1] + pipelines[1..];
      assert pipelines[..1][..0] == [];
      AllJobURLsAppend(host, team, pipelines[..1], pipelines[1..]);
      GroupsURLsCount(host, team, pipelines[0].name, pipelines[0].groups);
      AllJobURLsCount(host, team, pipelines[1..]);
    }
  }

  /** Every listed job has its URL in the listing. */
  lemma {:induction false} ListedJobHasURL(host: string, team: string, pipelines: seq<Pipeline>, i: int, g: int, j: int)
    requires Listed(pipelines, i, g, j)
    ensures JobURL(host, team, pipelines[i].name, pipelines[i].groups[g].jobs[j]) in AllJobURLs(host, team, pipelines)
  {
    var p := pipelines[i];
    var groups := p.groups;
    JobsURLsAt(host, team, p.name, groups[g].jobs);
    assert JobURL(host, team, p.name, groups[g].jobs[j]) in JobsURLs(host, team, p.name, groups[g].jobs);
    assert groups == groups[..g] + [groups[g]] + groups[g + 1..];
    GroupsURLsAppend(host, team, p.name, groups[..g] + [groups[g]], groups[g + 1..]);
    GroupsURLsAppend(host, team, p.name, groups[..g], [groups[g]]);
    assert [groups[g]][..0] == [];
    assert pipelines == pipelines[..i] + [p] + pipelines[i + 1..];
    AllJobURLsAppend(host, team, pipelines[..i] + [p], pipelines[i + 1..]);
    AllJobURLsAppend(host, team, pipelines[..i], [p]);
    assert [p][..0] == [];
  }

  /** Every URL of the listing is the URL of a listed job. */
  lemma {:induction false} URLIsOfListedJob(host: string, team: string, pipelines: seq<Pipeline>, u: string)
    requires u in AllJobURLs(host, team, pipelines)
    ensures exists i, g, j :: Listed(pipelines, i, g, j)
              && u == JobURL(host, team, pipelines[i].name, pipelines[i].groups[g].jobs[j])
  {
    var n := |pipelines| - 1;
    var init := pipelines[..n];
    if u in AllJobURLs(host, team, init) {
      URLIsOfListedJob(host, team, init, u);
      var i, g, j :| Listed(init, i, g, j) && u == JobURL(host, team, init[i].name, init[i].groups[g].jobs[j]);
      assert init[i] == pipelines[i];
      assert Listed(pipelines, i, g, j);
    } else {
      var p := pipelines[n];
      assert !p.paused;
      var g, j := URLInGroups(host, team, p.name, p.groups, u);
      assert Listed(pipelines, n, g, j);
    }
  }

  lemma {:induction false} URLInGroups(host: string, team: string, pipeline: string, groups: seq<Group>, u: string)
    returns (g: nat, j: nat)
    requires u in GroupsURLs(host, team, pipeline, groups)
    ensures g < |groups| && j < |groups[g].jobs| && u == JobURL(host, team, pipeline, groups[g].jobs[j])
  {
    var n := |groups| - 1;
    if u in GroupsURLs(host, team, pipeline, groups[..n]) {
      g, j := URLInGroups(host, team, pipeline, groups[..n], u);
      assert groups[..n][g] == groups[g];
    } else {
      JobsURLsAt(host, team, pipeline, groups[n].jobs);
      var urls := JobsURLs(host, team, pipeline, groups[n].jobs);
      var k :| 0 <= k < |urls| && urls[k] == u;
      g, j := n, k;
    }
  }

  /** The listing of the source's test: two active pipelines' jobs in order, nothing of the paused third. */
  lemma TestListing(host: string)
    ensures var g1 := Group("g1", ["g1j1", "g1j2"]);
            var g2 := Group("g2", ["g2j1", "g2j2"]);
            var ps := [Pipeline("p1", "/teams/main/pipelines/p1", false, [g1, g2]),
                       Pipeline("p2", "/teams/main/pipelines/p2", false, [g1]),
                       Pipeline("p3", "/teams/main/pipelines/p3", true, [g1])];
            AllJobURLs(host, "main", ps)
            == [JobURL(host, "main", "p1", "g1j1"), JobURL(host, "main", "p1", "g1j2"),
                JobURL(host, "main", "p1", "g2j1"), JobURL(host, "main", "p1", "g2j2"),
                JobURL(host, "main", "p2", "g1j1"), JobURL(host, "main", "p2", "g1j2")]
  {
    var g1 := Group("g1", ["g1j1", "g1j2"]);
    var g2 := Group("g2", ["g2j1", "g2j2"]);
    var p1 := Pipeline("p1", "/teams/main/pipelines/p1", false, [g1, g2]);
    var p2 := Pipeline("p2", "/teams/main/pipelines/p2", false, [g1]);
    var p3 := Pipeline("p3", "/teams/main/pipelines/p3", true, [g1]);
    var a := [JobURL(host, "main", "p1", "g1j1"), JobURL(host, "main", "p1", "g1j2")];
    var b := [JobURL(host, "main", "p1", "g2j1"), JobURL(host, "main", "p1", "g2j2")];
    var c := [JobURL(host, "main", "p2", "g1j1"), JobURL(host, "main", "p2", "g1j2")];
    TwoJobs(host, "main", "p1", "g1j1", "g1j2");
    TwoJobs(host, "main", "p1", "g2j1", "g2j2");
    TwoJobs(host, "main", "p2", "g1j1", "g1j2");
    assert [g1, g2][..1] == [g1];
    assert GroupsURLs(host, "main", "p1", [g1]) == a;
    assert GroupsURLs(host, "main", "p1", [g1, g2]) == a + b;
    assert GroupsURLs(host, "main", "p2", [g1]) == c;
    assert [p1, p2, p3][..2] == [p1, p2] && [p1, p2][..1] == [p1];
    assert AllJobURLs(host, "main", [p1]) == a + b;
    assert AllJobURLs(host, "main", [p1, p2]) == a + b + c;
  }

  lemma TwoJobs(host: string, team: string, pipeline: string, j1: string, j2: string)
    ensures JobsURLs(host, team, pipeline, [j1, j2]) == [JobURL(host, team, pipeline, j1), JobURL(host, team, pipeline, j2)]
  {
    assert [j1, j2][..1] == [j1] && [j1][..0] == [];
    assert JobsURLs(host, team, pipeline, [j1]) == [JobURL(host, team, pipeline, j1)];
    assert JobsURLs(host, team, pipeline, [j1, j2]) == JobsURLs(host, team, pipeline, [j1]) + [JobURL(host, team, pipeline, j2)];
  }
}
