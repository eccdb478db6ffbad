/** Many closes of one project against its origin (sigiledd/src/sessions.rs, sigiledd/src/runtime.rs): the
    mirror is a cache reset to origin, a push is fast-forward only and its reply may be lost, and writers
    elsewhere keep pushing session branches and fast-forwarding master between any two commands. */
module Closes {
  import opened CommitGraph
  import opened Merge
  import opened Wrappers

  datatype PushAnswer = Accepted | Refused | AcceptedReplyLost

  /** One close: its branch, what git answers during it, and how the outside answers. */
  datatype Request = Request(branch: string, git: Git, weather: Weather)

  /** How the outside answered one close, and whether others write to origin meanwhile. */
  datatype Weather = Weather(others: bool, mirrorOk: bool, fetchOk: bool, push: PushAnswer, deleteOk: bool)
  {
    predicate Good() { !others && mirrorOk && fetchOk && push == Accepted }
  }

  /** What one close brought together: the graph git was asked in, the value of master and the head of the branch. */
  datatype Meeting = Meeting(graph: Graph, ours: nat, theirs: nat)
  {
    ghost predicate Ok() { CommitGraph.Ok(graph) && ours < |graph| && theirs < |graph| }

    ghost predicate Diverged()
      requires Ok()
    {
      !Anc(graph, theirs, ours) && !Anc(graph, ours, theirs)
    }
  }

  /** What became of a meeting: the side that contains the other, or the tree git fused on top of both. */
  ghost predicate Joined(f: Meeting, answers: Answers, g: Graph, sha: nat)
    requires f.Ok()
  {
    if Anc(f.graph, f.theirs, f.ours) then sha == f.ours
    else if Anc(f.graph, f.ours, f.theirs) then sha == f.theirs
    else answers.merge.Clean? && sha < |g| && g[sha] == Commit([f.ours, f.theirs], answers.merge.tree)
  }

  datatype CloseResult = Closed(sha: nat) | ClosedWithDebt(ours: nat, theirs: nat) | NotClosed

  /** A close that reported success: the head it fetched and the place of its push in origin's history. */
  datatype Report = Report(head: nat, at: nat)

  /** The outcome is the one the meeting calls for. */
  ghost predicate Met(f: Meeting, git: Git, g: Graph, r: Outcome) {
    var answers := git(f.graph, f.ours, f.theirs);
    && f.Ok() && f.graph <= g
    && (r.Ff? || r.Merged? ==> Joined(f, answers, g, r.sha))
    && (r.Debt? ==> f.Diverged() && answers.merge.Conflicted? && r == Debt(f.ours, f.theirs))
    && (answers.Smooth() ==> r != GitFailed)
  }

  lemma Meets(f: Meeting, git: Git, g: Graph, r: Outcome)
    ensures Met(f, git, g, r) ==> f.Ok() && f.graph <= g
    ensures Met(f, git, g, r) && (r.Ff? || r.Merged?) ==> Joined(f, git(f.graph, f.ours, f.theirs), g, r.sha)
    ensures Met(f, git, g, r) && r.Debt? ==>
              f.Diverged() && git(f.graph, f.ours, f.theirs).merge.Conflicted? && r == Debt(f.ours, f.theirs)
    ensures Met(f, git, g, r) && git(f.graph, f.ours, f.theirs).Smooth() ==> r != GitFailed
  {
  }

  lemma JoinedGrows(f: Meeting, answers: Answers, g: Graph, g': Graph, sha: nat)
    requires f.Ok() && Joined(f, answers, g, sha) && g <= g'
    ensures Joined(f, answers, g', sha)
  {
  }

  /** What a close publishes has, path by path, whatever only one side changed since the base as that side has it,
      provided git fuses path by path when it has to fuse. */
  lemma WorkArrives(f: Meeting, answers: Answers, g: Graph, sha: nat)
    requires f.Ok() && f.graph <= g && Joined(f, answers, g, sha)
    requires answers.base.Some? && BestBase(f.graph, answers.base.value, f.ours, f.theirs)
    requires f.Diverged() ==> CleanFits(answers, f.graph, f.ours, f.theirs)
    ensures sha < |g| && answers.base.value < |g|
    ensures Fused(g[answers.base.value].tree, g[f.ours].tree, g[f.theirs].tree, g[sha].tree)
  {
    hide BestBase, Anc;
    Bases(f.graph, answers.base.value, f.ours, f.theirs);
  }

  /** Git fails nowhere on this meeting. */
  predicate Prompted(g: Graph, ours: nat, theirs: nat, git: Git) { git(g, ours, theirs).Smooth() }

  /** Each value of origin master descends from all earlier ones. */
  ghost predicate Chain(g: Graph, history: seq<nat>) {
    Ok(g) && forall i, j :: 0 <= i <= j < |history| ==> history[j] < |g| && Anc(g, history[i], history[j])
  }

  /** Every reported head is contained in origin master from its push on. */
  ghost predicate Kept(g: Graph, history: seq<nat>, reports: set<Report>)
    requires Chain(g, history)
  {
    forall r :: r in reports ==> r.at < |history| && forall j :: r.at <= j < |history| ==> Anc(g, r.head, history[j])
  }

  lemma Fits(parents: seq<nat>, g: Graph)
    requires forall k :: 0 <= k < |parents| ==> parents[k] < |g|
    ensures forall p :: p in parents ==> p < |g|
  {
  }

  lemma ChainGrows(g: Graph, g': Graph, history: seq<nat>, reports: set<Report>)
    requires Chain(g, history) && Kept(g, history, reports) && Ok(g') && g <= g'
    ensures Chain(g', history) && Kept(g', history, reports)
  {
    forall i, j | 0 <= i <= j < |history| ensures Anc(g', history[i], history[j]) {
      AncGrows(g, g', history[i], history[j]);
    }
    forall r, j | r in reports && r.at <= j < |history| ensures Anc(g', r.head, history[j]) {
      AncGrows(g, g', r.head, history[j]);
    }
  }

  lemma ChainMoves(g: Graph, history: seq<nat>, reports: set<Report>, next: nat)
    requires Chain(g, history) && Kept(g, history, reports) && history != [] && next < |g|
             && Anc(g, history[|history| - 1], next)
    ensures Chain(g, history + [next]) && Kept(g, history + [next], reports)
  {
    var last := history[|history| - 1];
    forall i | 0 <= i < |history| ensures Anc(g, history[i], next) {
      AncTrans(g, history[i], last, next);
    }
    forall r | r in reports ensures Anc(g, r.head, next) {
      assert Anc(g, r.head, last);
      AncTrans(g, r.head, last, next);
    }
  }

  /** A head that the last value contains may be reported. */
  lemma Reported(g: Graph, history: seq<nat>, reports: set<Report>, head: nat)
    requires Chain(g, history) && Kept(g, history, reports) && history != [] && Anc(g, head, history[|history| - 1])
    ensures Kept(g, history, reports + {Report(head, |history| - 1)})
  {
  }

  /** A reported head is contained in the last value. */
  lemma Contained(g: Graph, history: seq<nat>, reports: set<Report>, head: nat, at: nat)
    requires Chain(g, history) && Kept(g, history, reports) && Report(head, at) in reports && history != []
    ensures at < |history| && Anc(g, head, history[|history| - 1])
  {
    assert Report(head, at).at < |history|;
  }

  class Project {
    const repo: Repository
    var originMaster: nat
    var originHeads: map<string, nat>
    ghost var history: seq<nat>
    ghost var reports: set<Report>

    ghost predicate Valid()
      reads this, repo
    {
      && repo.Valid()
      && (forall b :: b in originHeads ==> originHeads[b] < |repo.graph|)
      && history != [] && history[|history| - 1] == originMaster
      && Chain(repo.graph, history)
      && Kept(repo.graph, history, reports)
    }

    constructor (tree: Tree)
      ensures Valid() && fresh(repo) && reports == {}
      ensures repo.graph == [Commit([], tree)] && originMaster == 0 && originHeads == map[]
    {
      repo := new Repository(tree);
      originMaster := 0;
      originHeads := map[];
      history := [0];
      reports := {};
      new;
      originMaster, history := repo.master, [repo.master];
      assert Anc(repo.graph, repo.master, repo.master);
    }

    /** A writer elsewhere stores a commit and may point a session branch anywhere. */
    method WriteElsewhere(parents: seq<nat>, tree: Tree, branch: string, head: nat)
      requires Valid()
      modifies this`originHeads, repo`graph
      ensures Valid() && old(repo.graph) <= repo.graph
      ensures repo.graph == if forall k :: 0 <= k < |parents| ==> parents[k] < |old(repo.graph)|
                            then Added(old(repo.graph), parents, tree) else old(repo.graph)
      ensures originHeads == if head < |repo.graph| then old(originHeads)[branch := head] else old(originHeads)
    {
      hide Chain, Kept;
      ghost var before := repo.graph;
      if forall k :: 0 <= k < |parents| ==> parents[k] < |repo.graph| {
        Fits(parents, repo.graph);
        repo.graph := Added(repo.graph, parents, tree);
        ChainGrows(before, repo.graph, history, reports);
      }
      if head < |repo.graph| { originHeads := originHeads[branch := head]; }
    }

    /** A writer elsewhere moves master, forward only. */
    method PushElsewhere(next: nat)
      requires Valid()
      modifies this`originMaster, this`history
      ensures Valid() && old(history) <= history
    {
      hide Kept;
      if next < |repo.graph| && Anc(repo.graph, originMaster, next) {
        ChainMoves(repo.graph, history, reports, next);
        originMaster := next;
        history := history + [next];
      }
    }

    method Interfere(others: bool)
      requires Valid()
      modifies this`originMaster, this`originHeads, this`history, repo`graph
      ensures Valid() && old(repo.graph) <= repo.graph && old(history) <= history
      ensures !others ==> Unmoved(old(repo.graph), old(originMaster), old(originHeads))
    {
      hide Chain, Kept;
      if !others { return; }
      var rounds: nat := *;
      while rounds > 0
        invariant Valid() && old(repo.graph) <= repo.graph && old(history) <= history
      {
        var parents: seq<nat>, tree: Tree, branch: string, head: nat, next: nat := *, *, *, *, *;
        WriteElsewhere(parents, tree, branch, head);
        PushElsewhere(next);
        rounds := rounds - 1;
      }
    }

    ghost predicate Unmoved(graph: Graph, originMaster: nat, originHeads: map<string, nat>)
      reads this, repo
    {
      repo.graph == graph && this.originMaster == originMaster && this.originHeads == originHeads
    }

    /** `ensure_mirror`: fetch, then reset local master to origin's. */
    method EnsureMirror(ok: bool) returns (done: bool)
      requires Valid()
      modifies repo`master
      ensures Valid() && done == ok
      ensures repo.master == if ok then originMaster else old(repo.master)
    {
      if ok { repo.master := originMaster; }
      done := ok;
    }

    /** `git fetch origin +branch:branch`. */
    method Fetch(branch: string, ok: bool) returns (done: bool)
      requires Valid()
      modifies repo`heads
      ensures Valid()
      ensures done <==> ok && branch in originHeads
      ensures repo.heads == if done then old(repo.heads)[branch := originHeads[branch]] else old(repo.heads)
    {
      done := ok && branch in originHeads;
      if done { repo.heads := repo.heads[branch := originHeads[branch]]; }
    }

    /** `git push origin master`: origin takes only a descendant of what it has, and the reply may be lost. */
    method Push(answer: PushAnswer) returns (done: bool)
      requires Valid()
      modifies this`originMaster, this`history
      ensures Valid() && old(history) <= history
      ensures done ==> history == old(history) + [repo.master]
      ensures answer == Accepted && Anc(repo.graph, old(originMaster), repo.master) ==> done
      ensures originMaster == old(originMaster) || (originMaster == repo.master && answer != Refused)
    {
      if answer == Refused || !Anc(repo.graph, originMaster, repo.master) {
        return false;
      }
      ChainMoves(repo.graph, history, reports, repo.master);
      originMaster := repo.master;
      history := history + [repo.master];
      return answer == Accepted;
    }

    /** `close_merge` in the mirror; origin is not touched. */
    method Fuse(branch: string, git: Git) returns (r: Outcome)
      requires Valid() && Truthful(git) && branch in repo.heads
      modifies repo`graph, repo`master
      ensures Valid() && old(repo.graph) <= repo.graph
      ensures r.Ff? || r.Merged? ==> r.sha == repo.master && Anc(repo.graph, repo.heads[branch], repo.master)
      ensures r.Debt? ==> r == Debt(repo.master, repo.heads[branch]) && repo.master == old(repo.master)
      ensures git(old(repo.graph), old(repo.master), repo.heads[branch]).Smooth()
              && old(Anc(repo.graph, repo.master, repo.heads[branch]))
              ==> r == Ff(repo.heads[branch]) && repo.graph == old(repo.graph)
      ensures Met(Meeting(old(repo.graph), old(repo.master), repo.heads[branch]), git, repo.graph, r)
      ensures Anc(repo.graph, old(repo.master), repo.master)
    {
      hide Chain, Kept;
      ghost var before := repo.graph;
      r := repo.CloseMerge(branch, git(repo.graph, repo.master, repo.heads[branch]));
      ChainGrows(before, repo.graph, history, reports);
    }

    /** Publication of what the mirror holds: the push, with writers elsewhere in between. */
    method Publish(head: nat, weather: Weather) returns (done: bool)
      requires Valid() && Anc(repo.graph, head, repo.master)
      modifies this`originMaster, this`originHeads, this`history, this`reports, repo`graph
      ensures Valid() && old(repo.graph) <= repo.graph && old(history) <= history
      ensures done ==> |history| > |old(history)| && history[|history| - 1] == repo.master
      ensures reports == if done then old(reports) + {Report(head, |history| - 1)} else old(reports)
      ensures weather.Good() && old(Anc(repo.graph, originMaster, repo.master)) ==>
                done && originHeads == old(originHeads)
    {
      hide Chain, Kept;
      Interfere(weather.others);
      AncGrows(old(repo.graph), repo.graph, head, repo.master);
      done := Push(weather.push);
      if done {
        Reported(repo.graph, history, reports, head);
        reports := reports + {Report(head, |history| - 1)};
      }
    }

    /** `git push origin :branch`, whatever the branch has come to by then; a lost reply does not matter. */
    method Delete(branch: string, ok: bool) returns (gone: Option<nat>)
      requires Valid()
      modifies this`originHeads
      ensures Valid() && gone == (if ok && branch in old(originHeads) then Some(old(originHeads)[branch]) else None)
      ensures originHeads == if gone.Some? then old(originHeads) - {branch} else old(originHeads)
    {
      gone := None;
      if ok && branch in originHeads {
        gone := Some(originHeads[branch]);
        originHeads := originHeads - {branch};
      }
    }

    /** The mirror section of one close. Any return may also be a request that died there. What was pushed is what the
        two sides came to when they met; the branch is deleted only once master contains the head that was fetched;
        `gone` is the head that was deleted. In good weather the close ends, with a debt exactly on a conflict. */
    method Close(branch: string, git: Git, weather: Weather)
      returns (r: CloseResult, gone: Option<nat>, ghost at: nat, ghost met: Meeting)
      requires Valid() && Truthful(git)
      modifies this, repo
      ensures Valid() && old(history) <= history && old(reports) <= reports
      ensures r.Closed? ==> branch in repo.heads && |old(history)| <= at < |history| && r.sha == history[at]
                            && reports == old(reports) + {Report(repo.heads[branch], at)}
      ensures r.Closed? ==> met.Ok() && met.graph <= repo.graph && met.ours in history
                            && met.theirs == repo.heads[branch]
                            && Joined(met, git(met.graph, met.ours, met.theirs), repo.graph, r.sha)
      ensures r.ClosedWithDebt? ==>
                && branch in repo.heads && r == ClosedWithDebt(met.ours, met.theirs) && repo.master == met.ours
                && met.theirs == repo.heads[branch] && met.Ok() && met.ours in history
                && met.Diverged() && git(met.graph, met.ours, met.theirs).merge.Conflicted?
      ensures !r.Closed? ==> reports == old(reports)
      ensures gone.Some? ==> r.Closed? && gone.value < |repo.graph|
      ensures gone.Some? && gone.value == repo.heads[branch] ==> Anc(repo.graph, gone.value, originMaster)
      ensures weather.Good() && branch in old(originHeads)
              && Prompted(old(repo.graph), old(originMaster), old(originHeads)[branch], git) ==>
                && !r.NotClosed? && met == Meeting(old(repo.graph), old(originMaster), old(originHeads)[branch])
                && (r.ClosedWithDebt? <==> met.Diverged() && git(met.graph, met.ours, met.theirs).merge.Conflicted?)
                && (r.Closed? ==> originMaster == r.sha && (weather.deleteOk ==> branch !in originHeads))
    {
      hide Chain, Kept, Truthful, Met, Joined, Anc;
      at := 0;
      var fused;
      fused, met := Bring(branch, git, weather);
      ghost var g1 := repo.graph;
      Meets(met, git, g1, fused);
      match fused {
        case GitFailed => return NotClosed, None, at, met;
        case Debt(ours, theirs) => return ClosedWithDebt(ours, theirs), None, at, met;
        case _ =>
      }
      var pushed := Publish(repo.heads[branch], weather);
      if !pushed { return NotClosed, None, at, met; }
      at := |history| - 1;
      ghost var h1 := history;
      assert Report(repo.heads[branch], at) in reports;
      gone := LeaveBranch(branch, weather);
      assert history[at] == h1[at];
      Contained(repo.graph, history, reports, repo.heads[branch], at);
      JoinedGrows(met, git(met.graph, met.ours, met.theirs), g1, repo.graph, fused.sha);
      r := Closed(fused.sha);
    }

    /** Up to the merge: mirror, fetch, fuse. A failure before it counts as one of git. */
    method Bring(branch: string, git: Git, weather: Weather) returns (r: Outcome, ghost met: Meeting)
      requires Valid() && Truthful(git)
      modifies this`originMaster, this`originHeads, this`history, repo
      ensures Valid() && old(history) <= history
      ensures r != GitFailed ==>
                && branch in repo.heads && met.theirs == repo.heads[branch] && met.ours in history
                && Met(met, git, repo.graph, r)
      ensures r.Ff? || r.Merged? ==> r.sha == repo.master && Anc(repo.graph, repo.heads[branch], repo.master)
      ensures r.Debt? ==> r == Debt(repo.master, repo.heads[branch])
      ensures weather.Good() && branch in old(originHeads) ==>
                && Met(met, git, repo.graph, r) && originMaster == old(originMaster) && originHeads == old(originHeads)
                && met == Meeting(old(repo.graph), old(originMaster), old(originHeads)[branch])
                && (r.Ff? || r.Merged? ==> Anc(repo.graph, originMaster, repo.master))
    {
      hide Chain, Kept, Truthful, Met, Anc;
      met := Meeting([], 0, 0);
      Interfere(weather.others);
      var mirrored := EnsureMirror(weather.mirrorOk);
      if !mirrored { return GitFailed, met; }
      ghost var h1 := history;
      assert repo.master == h1[|h1| - 1];
      Interfere(weather.others);
      var fetched := Fetch(branch, weather.fetchOk);
      if !fetched { return GitFailed, met; }
      Interfere(weather.others);
      assert history[|h1| - 1] == h1[|h1| - 1];
      met := Meeting(repo.graph, repo.master, repo.heads[branch]);
      r := Fuse(branch, git);
    }

    /** After the save and the destroy: others may have pushed again. */
    method LeaveBranch(branch: string, weather: Weather) returns (gone: Option<nat>)
      requires Valid()
      modifies this`originMaster, this`originHeads, this`history, repo`graph
      ensures Valid() && old(repo.graph) <= repo.graph && old(history) <= history
      ensures gone.Some? ==> gone.value < |repo.graph|
      ensures weather.Good() ==> originMaster == old(originMaster) && (weather.deleteOk ==> branch !in originHeads)
    {
      hide Chain, Kept;
      Interfere(weather.others);
      gone := Delete(branch, weather.deleteOk);
    }

    /** Any number of closes, retries and mirror refreshes, git failing in some and not in others: origin master has
        only moved forward, and the head of every close that reported success is contained in every value it has had
        since. */
    method Serve(schedule: seq<Request>)
      requires Valid() && forall c :: c in schedule ==> Truthful(c.git)
      modifies this, repo
      ensures Valid() && old(history) <= history && old(reports) <= reports
      ensures forall i :: 0 <= i < |history| ==> history[i] < |repo.graph| && Anc(repo.graph, history[i], originMaster)
      ensures forall r :: r in reports ==> Anc(repo.graph, r.head, originMaster)
    {
      for i := 0 to |schedule|
        invariant Valid() && old(history) <= history && old(reports) <= reports
      {
        var refreshed := EnsureMirror(schedule[i].weather.mirrorOk);
        var r, gone, at, met := Close(schedule[i].branch, schedule[i].git, schedule[i].weather);
      }
    }
  }

  /** Git as it answers when nothing fails and master is contained in the head. */
  function Prompt(g: Graph, m: nat, h: nat): Answers {
    var base := if Ok(g) && m < |g| && h < |g| && Anc(g, m, h) then Some(m) else None;
    Answers(base, true, true, Clean(map[]), true, true, true)
  }

  lemma PromptIsTruthful()
    ensures Truthful(Prompt)
  {
    forall g, m: nat, h: nat | Ok(g) && m < |g| && h < |g| && Prompt(g, m, h).base.Some?
      ensures BestBase(g, Prompt(g, m, h).base.value, m, h)
    {
      ContainedBase(g, m, h);
    }
  }

  /** The deletion asks for nothing. A run: the branch is fetched at 1 and published, somebody pushes 2 to it, and it is
      deleted there: 2 is not contained in master, and no branch of origin has it. */
  method DeletedUnmerged() returns (w: Project, gone: Option<nat>)
    ensures fresh(w) && w.Valid() && w.originMaster == 1 && w.originHeads == map[]
    ensures gone == Some(2) && 2 < |w.repo.graph| && !Anc(w.repo.graph, 2, w.originMaster)
  {
    hide Chain, Kept, Truthful, BestBase;
    w := new Project(map[]);
    w.WriteElsewhere([0], map[], "session/a", 1);
    assert w.repo.graph[1].parents[0] == 0 && Anc(w.repo.graph, 0, 0);
    var mirrored := w.EnsureMirror(true);
    var fetched := w.Fetch("session/a", true);
    PromptIsTruthful();
    assert Anc(w.repo.graph, 0, 1);
    var fused := w.Fuse("session/a", Prompt);
    var pushed := w.Push(Accepted);
    w.WriteElsewhere([1], map[], "session/a", 2);
    gone := w.Delete("session/a", true);
    if Anc(w.repo.graph, 2, 1) { AncOrder(w.repo.graph, 2, 1); }
  }
}
