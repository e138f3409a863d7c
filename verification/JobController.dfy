/** The optimizer job controller: two indexes of tracked jobs and the sections of code that
    change them, each uninterrupted between two awaits. */
module JobController {
  import opened Wrappers

  /** exited: the child is gone and its exited promise resolved; coded: it has an exit code,
      which a child that was ended by a signal never gets. stopped: its process group is under
      SIGSTOP. expired: its deadline has passed. The code asks for the exit code only, and waits
      for the promise only. */
  datatype Job = Job(
    runId: string, token: string, exited: bool, coded: bool, stopped: bool, paused: bool, expired: bool)

  /** Every job ever spawned, by number, and the two indexes of the tracked ones. */
  datatype Registry = Registry(jobs: seq<Job>, byRunId: map<string, nat>, byToken: map<string, nat>) {

    ghost predicate Valid() {
      && (forall i, j :: 0 <= i < j < |jobs| ==> jobs[i].token != jobs[j].token)
      && (forall r :: r in byRunId ==> byRunId[r] < |jobs| && jobs[byRunId[r]].runId == r && Tracked(byRunId[r]))
      && (forall t :: t in byToken ==> byToken[t] < |jobs| && jobs[byToken[t]].token == t)
      && (forall j :: 0 <= j < |jobs| ==> jobs[j].paused == jobs[j].stopped && (jobs[j].coded ==> jobs[j].exited))
    }

    /** The token of the job leads to it. */
    predicate Tracked(j: nat)
      requires j < |jobs|
    {
      jobs[j].token in byToken && byToken[jobs[j].token] == j
    }

    /** The run has a job without exit code, which the code takes for an active worker. */
    predicate Live(r: string) {
      r in byRunId && byRunId[r] < |jobs| && !jobs[byRunId[r]].coded
    }

    function Active(): set<string> {
      set r | r in byRunId && Live(r)
    }
  }

  // ---------------------------------------------------------------- the sections as functions

  datatype Admission = ActiveWorker | LimitReached | Admitted

  function Admit(s: Registry, maximumJobs: int, runId: string): Admission {
    if s.Live(runId) then ActiveWorker
    else if |s.Active()| >= maximumJobs then LimitReached
    else Admitted
  }

  function Spawn(s: Registry, runId: string, token: string): Registry {
    s.(jobs := s.jobs + [Job(runId, token, false, false, false, false, false)])
  }

  function Register(s: Registry, j: nat): Registry
    requires j < |s.jobs|
  {
    s.(byRunId := s.byRunId[s.jobs[j].runId := j], byToken := s.byToken[s.jobs[j].token := j])
  }

  function Signal(s: Registry, j: nat, stop: bool): Registry
    requires j < |s.jobs|
  {
    s.(jobs := s.jobs[j := s.jobs[j].(stopped := stop, paused := stop)])
  }

  /** sent says whether the signal could be sent: if not, the section throws before it
      changes anything. */
  function Paused(s: Registry, j: nat, sent: bool): Registry
    requires j < |s.jobs|
  {
    if s.jobs[j].coded || s.jobs[j].paused || !sent then s else Signal(s, j, true)
  }

  function Resumed(s: Registry, j: nat, sent: bool): Registry
    requires j < |s.jobs|
  {
    if s.jobs[j].coded || !s.jobs[j].paused || !sent then s else Signal(s, j, false)
  }

  function Sliced(s: Registry, j: nat, sent: bool): Registry
    requires j < |s.jobs|
  {
    if s.jobs[j].coded || !sent then s else Signal(s, j, true)
  }

  function Cleanup(s: Registry, j: nat): Registry
    requires j < |s.jobs|
  {
    var runId := s.jobs[j].runId;
    Registry(s.jobs,
             if runId in s.byRunId && s.byRunId[runId] == j then s.byRunId - {runId} else s.byRunId,
             s.byToken - {s.jobs[j].token})
  }

  function ChildExit(s: Registry, j: nat, coded: bool): Registry
    requires j < |s.jobs|
  {
    s.(jobs := s.jobs[j := s.jobs[j].(exited := true, coded := coded)])
  }

  function Expire(s: Registry, j: nat): Registry
    requires j < |s.jobs|
  {
    s.(jobs := s.jobs[j := s.jobs[j].(expired := true)])
  }

  // ---------------------------------------------------------------- the controller

  class Controller {
    const maximumJobs: int
    var jobs: seq<Job>
    var byRunId: map<string, nat>
    var byToken: map<string, nat>

    ghost function State(): Registry
      reads this
    {
      Registry(jobs, byRunId, byToken)
    }

    constructor (maximumJobs: int)
      ensures State() == Registry([], map[], map[]) && this.maximumJobs == maximumJobs
    {
      this.maximumJobs := maximumJobs;
      jobs, byRunId, byToken := [], map[], map[];
    }

    /** start, inside the start gate, up to the spawn. */
    method StartAdmission(runId: string) returns (admission: Admission)
      requires State().Valid()
      ensures admission == Admit(State(), maximumJobs, runId)
    {
      if runId in byRunId && !jobs[byRunId[runId]].coded {
        return ActiveWorker;
      }
      var active := ActiveJobs();
      admission := if active >= maximumJobs then LimitReached else Admitted;
    }

    method ActiveJobs() returns (count: nat)
      requires State().Valid()
      ensures count == |State().Active()|
    {
      var active := {};
      var rest := byRunId.Keys;
      while rest != {}
        invariant rest <= byRunId.Keys
        invariant active == set r | r in byRunId && r !in rest && State().Live(r)
        decreases |rest|
      {
        var r :| r in rest;
        if !jobs[byRunId[r]].coded {
          active := active + {r};
        }
        rest := rest - {r};
      }
      assert active == State().Active();
      count := |active|;
    }

    /** start, after the spawn: the job enters both indexes. */
    method StartRegistration(j: nat)
      requires j < |jobs|
      modifies this`byRunId, this`byToken
      ensures State() == Register(old(State()), j)
    {
      byRunId := byRunId[jobs[j].runId := j];
      byToken := byToken[jobs[j].token := j];
    }

    /** pause, inside the gate: a live job that is not paused is stopped. */
    method PauseSection(j: nat, sent: bool) returns (token: Option<string>)
      requires j < |jobs|
      modifies this`jobs
      ensures State() == Paused(old(State()), j, sent)
      ensures token == if old(jobs[j].coded || jobs[j].paused) || sent then Some(old(jobs[j].token)) else None
    {
      if !jobs[j].coded && !jobs[j].paused {
        if !sent {
          return None;
        }
        jobs := jobs[j := jobs[j].(stopped := true)];
        jobs := jobs[j := jobs[j].(paused := true)];
      }
      token := Some(jobs[j].token);
    }

    /** resume, inside the gate, up to the wait. */
    method ResumeSection(j: nat, sent: bool) returns (goesOn: bool)
      requires j < |jobs|
      modifies this`jobs
      ensures State() == Resumed(old(State()), j, sent)
      ensures goesOn <==> old(jobs[j].coded || !jobs[j].paused) || sent
    {
      if !jobs[j].coded && jobs[j].paused {
        if !sent {
          return false;
        }
        jobs := jobs[j := jobs[j].(stopped := false)];
        jobs := jobs[j := jobs[j].(paused := false)];
      }
      goesOn := true;
    }

    /** The end of a slice: a live job is stopped. */
    method SliceSection(j: nat, sent: bool) returns (paused: bool)
      requires j < |jobs|
      modifies this`jobs
      ensures State() == Sliced(old(State()), j, sent)
      ensures paused <==> !old(jobs[j].coded) && sent
    {
      paused := !jobs[j].coded && sent;
      if paused {
        jobs := jobs[j := jobs[j].(stopped := true, paused := true)];
      }
    }

    method CleanupSection(j: nat)
      requires j < |jobs|
      modifies this`byRunId, this`byToken
      ensures State() == Cleanup(old(State()), j)
    {
      if jobs[j].runId in byRunId && byRunId[jobs[j].runId] == j {
        byRunId := byRunId - {jobs[j].runId};
      }
      byToken := byToken - {jobs[j].token};
    }
  }

  // ---------------------------------------------------------------- what each section keeps

  lemma SubsetSize(a: set<string>, b: set<string>)
    requires a <= b
    ensures |a| <= |b|
  {
    assert b == a + (b - a);
  }

  /** No run becomes live and no job forgets its run, its token or its exit. */
  ghost predicate Quieter(s: Registry, t: Registry) {
    && |s.jobs| <= |t.jobs|
    && (forall j :: 0 <= j < |s.jobs| ==>
        && t.jobs[j].runId == s.jobs[j].runId && t.jobs[j].token == s.jobs[j].token
        && (s.jobs[j].exited ==> t.jobs[j].exited) && (s.jobs[j].coded ==> t.jobs[j].coded))
    && forall r :: t.Live(r) ==> s.Live(r)
  }

  lemma QuieterCount(s: Registry, t: Registry)
    requires Quieter(s, t)
    ensures |t.Active()| <= |s.Active()|
  {
    assert t.Active() <= s.Active();
    SubsetSize(t.Active(), s.Active());
  }

  lemma SpawnKeeps(s: Registry, runId: string, token: string)
    requires s.Valid() && forall j :: 0 <= j < |s.jobs| ==> s.jobs[j].token != token
    ensures Spawn(s, runId, token).Valid() && Quieter(s, Spawn(s, runId, token))
  {
    var t := Spawn(s, runId, token);
    forall r ensures t.Live(r) <==> s.Live(r) {}
  }

  /** Registering a job makes its run live and no other, and keeps both indexes. */
  lemma RegisterKeeps(s: Registry, j: nat)
    requires s.Valid() && j < |s.jobs|
    ensures Register(s, j).Valid()
    ensures |Register(s, j).Active()| <= |s.Active()| + 1
    ensures Register(s, j).Tracked(j) && Register(s, j).byRunId[s.jobs[j].runId] == j
  {
    var t := Register(s, j);
    var runId := s.jobs[j].runId;
    forall r | r in t.byRunId
      ensures t.byRunId[r] < |t.jobs| && t.jobs[t.byRunId[r]].runId == r && t.Tracked(t.byRunId[r])
    {
      if r != runId {
        assert s.Tracked(s.byRunId[r]);
      }
    }
    assert t.Active() <= s.Active() + {runId};
    SubsetSize(t.Active(), s.Active() + {runId});
  }

  lemma SignalKeeps(s: Registry, j: nat, stop: bool)
    requires s.Valid() && j < |s.jobs|
    ensures Signal(s, j, stop).Valid() && Quieter(s, Signal(s, j, stop))
  {
    var t := Signal(s, j, stop);
    forall r ensures t.Live(r) <==> s.Live(r) {}
    forall r | r in t.byRunId ensures t.Tracked(t.byRunId[r]) {
      assert s.Tracked(s.byRunId[r]);
    }
  }

  /** Cleaning up a job removes nothing that belongs to another one: a newer job of the same
      run stays in both indexes. */
  lemma CleanupKeeps(s: Registry, j: nat)
    requires s.Valid() && j < |s.jobs|
    ensures Cleanup(s, j).Valid() && Quieter(s, Cleanup(s, j))
    ensures forall r :: r in s.byRunId && s.byRunId[r] != j ==>
      r in Cleanup(s, j).byRunId && Cleanup(s, j).byRunId[r] == s.byRunId[r]
    ensures forall k :: 0 <= k < |s.jobs| && k != j && s.Tracked(k) ==> Cleanup(s, j).Tracked(k)
    ensures !Cleanup(s, j).Tracked(j) && forall r :: r in Cleanup(s, j).byRunId ==> Cleanup(s, j).byRunId[r] != j
  {
    var t := Cleanup(s, j);
    forall r | r in t.byRunId ensures t.Tracked(t.byRunId[r]) {
      assert s.Tracked(s.byRunId[r]);
    }
  }

  lemma ExitKeeps(s: Registry, j: nat, coded: bool)
    requires s.Valid() && j < |s.jobs| && !s.jobs[j].exited
    ensures ChildExit(s, j, coded).Valid() && Quieter(s, ChildExit(s, j, coded))
  {
    var t := ChildExit(s, j, coded);
    forall r | r in t.byRunId ensures t.Tracked(t.byRunId[r]) {
      assert s.Tracked(s.byRunId[r]);
    }
  }

  lemma ExpireKeeps(s: Registry, j: nat)
    requires s.Valid() && j < |s.jobs|
    ensures Expire(s, j).Valid() && Quieter(s, Expire(s, j))
  {
    var t := Expire(s, j);
    forall r | r in t.byRunId ensures t.Tracked(t.byRunId[r]) {
      assert s.Tracked(s.byRunId[r]);
    }
  }
}
