/**
 The install queue as interleaved steps. A coroutine runs alone between two
 awaits, so each step below is one such stretch; the installer itself runs in a
 thread of its own, and the marker it stamps can appear at any moment before the
 queue hears that it finished.
 */
module InstallQueue {

  datatype Key = Key(language: string, package: string)

  /** Queued for the volume; writing to it; past it, with a result; finished and forgotten. */
  datatype Phase = Queued | Writing(stamped: bool) | Closing(ok: bool) | Done(ok: bool)

  datatype Job = Job(key: Key, writer: nat, phase: Phase)

  datatype Stage = Missed(missing: seq<string>) | Awaiting(jobs: seq<nat>) | Returned | Raised

  datatype Request = Request(language: string, packages: seq<string>, stage: Stage)

  /**
   Markers are what the volume holds; known is what this queue remembers of it.
   Writers are the locks of the volumes, by language, and busy the locks taken.
   */
  datatype State = State(markers: set<Key>, known: set<Key>, inflight: map<Key, nat>, jobs: seq<Job>,
                         writers: map<string, nat>, busy: set<nat>, requests: seq<Request>)

  const Initial: State := State({}, {}, map[], [], map[], {}, [])

  // ----- the request's side -----

  predicate Cached(s: State, key: Key) {
    key in s.known || key in s.markers
  }

  /** Asking whether a package is cached remembers a marker that was found. */
  function Remember(s: State, key: Key): State {
    if key in s.markers then s.(known := s.known + {key}) else s
  }

  datatype Looked = Looked(state: State, missing: seq<string>)

  function LookUp(s: State, language: string, packages: seq<string>): Looked
    decreases |packages|
  {
    if packages == [] then Looked(s, [])
    else
      var key := Key(language, packages[0]);
      var rest := LookUp(Remember(s, key), language, packages[1..]);
      Looked(rest.state, (if Cached(s, key) then [] else [packages[0]]) + rest.missing)
  }

  function Ask(s: State, language: string, packages: seq<string>): State {
    var looked := LookUp(s, language, packages);
    var stage := if looked.missing == [] then Returned else Missed(looked.missing);
    looked.state.(requests := s.requests + [Request(language, packages, stage)])
  }

  datatype Admitted = Admitted(state: State, jobs: seq<nat>)

  /** The job that will bring the package: the one in flight, or a new one. */
  function Enlist(s: State, key: Key, writer: nat): State {
    if key in s.inflight then s
    else s.(jobs := s.jobs + [Job(key, writer, Queued)], inflight := s.inflight[key := |s.jobs|])
  }

  function AdmitEach(s: State, language: string, writer: nat, missing: seq<string>): Admitted
    decreases |missing|
  {
    if missing == [] then Admitted(s, [])
    else
      var key := Key(language, missing[0]);
      if Cached(s, key) then AdmitEach(Remember(s, key), language, writer, missing[1..])
      else
        var enlisted := Enlist(s, key, writer);
        var rest := AdmitEach(enlisted, language, writer, missing[1..]);
        Admitted(rest.state, [enlisted.inflight[key]] + rest.jobs)
  }

  /** The lock of a language's volume, made on first use. */
  function WithWriter(s: State, language: string): State {
    if language in s.writers then s else s.(writers := s.writers[language := |s.writers|])
  }

  function Admit(s: State, r: nat): State
    requires r < |s.requests| && s.requests[r].stage.Missed?
  {
    var request := s.requests[r];
    var ready := WithWriter(s, request.language);
    var admitted := AdmitEach(ready, request.language, ready.writers[request.language], request.stage.missing);
    admitted.state.(requests := s.requests[r := request.(stage := Awaiting(admitted.jobs))])
  }

  function Conclude(s: State, r: nat, stage: Stage): State
    requires r < |s.requests|
  {
    s.(requests := s.requests[r := s.requests[r].(stage := stage)])
  }

  // ----- the job's side -----

  function WithPhase(s: State, j: nat, phase: Phase): State
    requires j < |s.jobs|
  {
    s.(jobs := s.jobs[j := s.jobs[j].(phase := phase)])
  }

  function Begin(s: State, j: nat): State
    requires j < |s.jobs|
  {
    WithPhase(s, j, Writing(false)).(busy := s.busy + {s.jobs[j].writer})
  }

  function Stamp(s: State, j: nat): State
    requires j < |s.jobs|
  {
    WithPhase(s, j, Writing(true)).(markers := s.markers + {s.jobs[j].key})
  }

  function Finish(s: State, j: nat, ok: bool): State
    requires j < |s.jobs|
  {
    WithPhase(s, j, Closing(ok)).(busy := s.busy - {s.jobs[j].writer},
                                  known := if ok then s.known + {s.jobs[j].key} else s.known)
  }

  function Forget(s: State, j: nat): State
    requires j < |s.jobs| && s.jobs[j].phase.Closing?
  {
    WithPhase(s, j, Done(s.jobs[j].phase.ok)).(inflight := s.inflight - {s.jobs[j].key})
  }

  // ----- steps and runs -----

  datatype Event =
    | Asking(language: string, packages: seq<string>)
    | Admitting(r: nat)
    | Returning(r: nat)
    | Raising(r: nat)
    | Beginning(j: nat)
    | Stamping(j: nat)
    | Finishing(j: nat, ok: bool)
    | Forgetting(j: nat)
    | Appearing(key: Key)

  predicate Live(job: Job) {
    !job.phase.Done?
  }

  predicate Succeeded(job: Job) {
    (job.phase.Closing? || job.phase.Done?) && job.phase.ok
  }

  predicate Enabled(s: State, e: Event) {
    match e
    case Asking(_, _) => true
    case Admitting(r) => r < |s.requests| && s.requests[r].stage.Missed?
    case Returning(r) =>
      && r < |s.requests| && s.requests[r].stage.Awaiting?
      && forall j :: j in s.requests[r].stage.jobs ==> j < |s.jobs| && s.jobs[j].phase == Done(true)
    case Raising(r) =>
      && r < |s.requests| && s.requests[r].stage.Awaiting?
      && exists j :: j in s.requests[r].stage.jobs && j < |s.jobs| && s.jobs[j].phase == Done(false)
    case Beginning(j) => j < |s.jobs| && s.jobs[j].phase == Queued && s.jobs[j].writer !in s.busy
    case Stamping(j) => j < |s.jobs| && s.jobs[j].phase.Writing?
    case Finishing(j, ok) => j < |s.jobs| && s.jobs[j].phase.Writing? && (ok ==> s.jobs[j].phase.stamped)
    case Forgetting(j) => j < |s.jobs| && s.jobs[j].phase.Closing?
    case Appearing(_) => true
  }

  function Step(s: State, e: Event): State
    requires Enabled(s, e)
  {
    match e
    case Asking(language, packages) => Ask(s, language, packages)
    case Admitting(r) => Admit(s, r)
    case Returning(r) => Conclude(s, r, Returned)
    case Raising(r) => Conclude(s, r, Raised)
    case Beginning(j) => Begin(s, j)
    case Stamping(j) => Stamp(s, j)
    case Finishing(j, ok) => Finish(s, j, ok)
    case Forgetting(j) => Forget(s, j)
    case Appearing(key) => s.(markers := s.markers + {key})
  }

  ghost predicate Runs(s: State, events: seq<Event>)
    decreases |events|
  {
    events == [] || (Enabled(s, events[0]) && Runs(Step(s, events[0]), events[1..]))
  }

  ghost function Run(s: State, events: seq<Event>): State
    requires Runs(s, events)
    decreases |events|
  {
    if events == [] then s else Run(Step(s, events[0]), events[1..])
  }

  // ----- what every step keeps -----

  /** A job is registered for its package exactly while it is not done. */
  predicate Registered(s: State) {
    && (forall k :: k in s.inflight ==> s.inflight[k] < |s.jobs| && s.jobs[s.inflight[k]].key == k && Live(s.jobs[s.inflight[k]]))
    && (forall j :: 0 <= j < |s.jobs| && Live(s.jobs[j]) ==> s.jobs[j].key in s.inflight && s.inflight[s.jobs[j].key] == j)
  }

  /** Every job has the lock of its language, and a lock is taken exactly by the one job that writes. */
  predicate Locked(s: State) {
    && (forall j :: 0 <= j < |s.jobs| ==> s.jobs[j].key.language in s.writers && s.jobs[j].writer == s.writers[s.jobs[j].key.language])
    && (forall j :: 0 <= j < |s.jobs| && s.jobs[j].phase.Writing? ==> s.jobs[j].writer in s.busy)
    && (forall i, j :: 0 <= i < j < |s.jobs| && s.jobs[i].phase.Writing? && s.jobs[j].phase.Writing? ==> s.jobs[i].writer != s.jobs[j].writer)
  }

  /** A taken lock is held by a writer, and two languages never share one. */
  predicate Held(s: State) {
    && (forall w :: w in s.busy ==> exists j :: 0 <= j < |s.jobs| && s.jobs[j].phase.Writing? && s.jobs[j].writer == w)
    && (forall l :: l in s.writers ==> s.writers[l] < |s.writers|)
    && (forall l, m :: l in s.writers && m in s.writers && l != m ==> s.writers[l] != s.writers[m])
  }

  /** What is remembered is on the volume; a success is remembered; no package is installed twice. */
  predicate Honest(s: State) {
    && s.known <= s.markers
    && (forall j :: 0 <= j < |s.jobs| && s.jobs[j].phase == Writing(true) ==> s.jobs[j].key in s.markers)
    && (forall j :: 0 <= j < |s.jobs| && Succeeded(s.jobs[j]) ==> s.jobs[j].key in s.known)
    && (forall i, j :: 0 <= i < |s.jobs| && 0 <= j < |s.jobs| && i != j && Succeeded(s.jobs[i]) && s.jobs[i].key == s.jobs[j].key ==>
          s.jobs[j].phase == Done(false) || s.jobs[j].phase == Closing(false))
  }

  predicate Awaited(s: State, key: Key, jobs: seq<nat>) {
    exists i :: 0 <= i < |jobs| && jobs[i] < |s.jobs| && s.jobs[jobs[i]].key == key
  }

  predicate Coming(s: State, language: string, stage: Stage, package: string) {
    match stage
    case Missed(missing) => package in missing
    case Awaiting(jobs) => Awaited(s, Key(language, package), jobs)
    case Returned => false
    case Raised => true
  }

  /** Where a request stands: each package it asked for is known, or still missing, or awaited. */
  predicate Served(s: State, request: Request) {
    forall p :: p in request.packages ==> Key(request.language, p) in s.known || Coming(s, request.language, request.stage, p)
  }

  predicate AllServed(s: State) {
    forall r :: 0 <= r < |s.requests| ==> Served(s, s.requests[r])
  }

  predicate Inv(s: State) {
    Registered(s) && Locked(s) && Held(s) && Honest(s) && AllServed(s)
  }

  // ----- the queue itself -----

  class Queue {
    var markers: set<Key>
    var known: set<Key>
    var inflight: map<Key, nat>
    var jobs: seq<Job>
    var writers: map<string, nat>
    var busy: set<nat>
    var requests: seq<Request>

    ghost function Abs(): State
      reads this
    {
      State(markers, known, inflight, jobs, writers, busy, requests)
    }

    constructor ()
      ensures Abs() == Initial
    {
      markers, known, inflight, jobs, writers, busy, requests := {}, {}, map[], [], map[], {}, [];
    }

    method IsCached(key: Key) returns (cached: bool)
      modifies this`known
      ensures cached == Cached(old(Abs()), key) && Abs() == Remember(old(Abs()), key)
    {
      if key in known {
        assert known + {key} == known;
        return true;
      }
      if key in markers {
        known := known + {key};
        return true;
      }
      return false;
    }

    /** The request's first stretch: what is missing, or nothing to do. */
    method Ensure(language: string, packages: seq<string>)
      modifies this
      ensures Abs() == Ask(old(Abs()), language, packages)
    {
      var missing: seq<string> := [];
      ghost var whole := LookUp(Abs(), language, packages);
      assert packages[0..] == packages;
      for i := 0 to |packages|
        invariant requests == old(requests)
        invariant var rest := LookUp(Abs(), language, packages[i..]); rest.state == whole.state && missing + rest.missing == whole.missing
      {
        assert packages[i..][1..] == packages[i + 1..];
        var cached := IsCached(Key(language, packages[i]));
        if !cached {
          missing := missing + [packages[i]];
        }
      }
      assert packages[|packages|..] == [] && Abs() == whole.state && missing == whole.missing;
      requests := requests + [Request(language, packages, if missing == [] then Returned else Missed(missing))];
    }

    method Start(key: Key, writer: nat) returns (job: nat)
      modifies this`jobs, this`inflight
      ensures Abs() == Enlist(old(Abs()), key, writer) && key in inflight && job == inflight[key]
    {
      if key in inflight {
        return inflight[key];
      }
      job := |jobs|;
      jobs := jobs + [Job(key, writer, Queued)];
      inflight := inflight[key := job];
    }

    method AdmitMissing(language: string, writer: nat, missing: seq<string>) returns (started: seq<nat>)
      modifies this`jobs, this`inflight, this`known
      ensures Admitted(Abs(), started) == AdmitEach(old(Abs()), language, writer, missing)
    {
      started := [];
      ghost var whole := AdmitEach(Abs(), language, writer, missing);
      assert missing[0..] == missing;
      for i := 0 to |missing|
        invariant var rest := AdmitEach(Abs(), language, writer, missing[i..]); rest.state == whole.state && started + rest.jobs == whole.jobs
      {
        assert missing[i..][1..] == missing[i + 1..];
        var key := Key(language, missing[i]);
        var cached := IsCached(key);
        if !cached {
          var job := Start(key, writer);
          started := started + [job];
        }
      }
    }

    method AdmitRequest(r: nat)
      requires r < |requests| && requests[r].stage.Missed?
      modifies this
      ensures Abs() == Admit(old(Abs()), r)
    {
      var request := requests[r];
      if request.language !in writers {
        writers := writers[request.language := |writers|];
      }
      var started := AdmitMissing(request.language, writers[request.language], request.stage.missing);
      requests := requests[r := request.(stage := Awaiting(started))];
    }

    method BeginJob(j: nat)
      requires Enabled(Abs(), Beginning(j))
      modifies this`jobs, this`busy
      ensures Abs() == Begin(old(Abs()), j)
    {
      busy := busy + {jobs[j].writer};
      jobs := jobs[j := jobs[j].(phase := Writing(false))];
    }

    /** The installer returned or raised: the lock is let go, and only a success is remembered. */
    method FinishJob(j: nat, ok: bool)
      requires Enabled(Abs(), Finishing(j, ok))
      modifies this`jobs, this`busy, this`known
      ensures Abs() == Finish(old(Abs()), j, ok)
    {
      busy := busy - {jobs[j].writer};
      jobs := jobs[j := jobs[j].(phase := Closing(ok))];
      if ok {
        known := known + {jobs[j].key};
      }
    }

    method ForgetJob(j: nat)
      requires Enabled(Abs(), Forgetting(j))
      modifies this`jobs, this`inflight
      ensures Abs() == Forget(old(Abs()), j)
    {
      inflight := inflight - {jobs[j].key};
      jobs := jobs[j := jobs[j].(phase := Done(jobs[j].phase.ok))];
    }
  }
}
