/**
 What the install queue promises in every interleaving: one writer per volume,
 one registered job per package, at most one successful install of it, failed
 jobs forgotten, and a request that returns only when all it asked for is there.
 */
module InstallSafety {
  import opened InstallQueue

  predicate Sound(s: State) {
    Registered(s) && Locked(s) && Held(s) && Honest(s)
  }

  /** Nothing is unlearned and no job changes its package. */
  predicate Grows(s: State, t: State) {
    && s.known <= t.known && |s.jobs| <= |t.jobs|
    && forall j :: 0 <= j < |s.jobs| ==> t.jobs[j].key == s.jobs[j].key
  }

  lemma GrowsOn(s: State, t: State, u: State)
    requires Grows(s, t) && Grows(t, u)
    ensures Grows(s, u)
  {
  }

  lemma AwaitedGrows(s: State, t: State, key: Key, jobs: seq<nat>)
    requires Grows(s, t) && Awaited(s, key, jobs)
    ensures Awaited(t, key, jobs)
  {
    var i :| 0 <= i < |jobs| && jobs[i] < |s.jobs| && s.jobs[jobs[i]].key == key;
    assert t.jobs[jobs[i]].key == key;
  }

  lemma ServedGrows(s: State, t: State, request: Request)
    requires Grows(s, t) && Served(s, request)
    ensures Served(t, request)
  {
    forall p | p in request.packages
      ensures Key(request.language, p) in t.known || Coming(t, request.language, request.stage, p)
    {
      if Key(request.language, p) !in s.known && request.stage.Awaiting? {
        AwaitedGrows(s, t, Key(request.language, p), request.stage.jobs);
      }
    }
  }

  lemma AllServedGrows(s: State, t: State)
    requires Grows(s, t) && AllServed(s) && t.requests == s.requests
    ensures AllServed(t)
  {
    forall r | 0 <= r < |s.requests| ensures Served(t, t.requests[r]) {
      ServedGrows(s, t, s.requests[r]);
    }
  }

  // ----- looking up -----

  lemma RememberKeeps(s: State, key: Key)
    requires Sound(s)
    ensures Sound(Remember(s, key)) && Grows(s, Remember(s, key))
  {
  }

  lemma {:induction false} LookUpKeeps(s: State, language: string, packages: seq<string>)
    requires Sound(s)
    ensures var looked := LookUp(s, language, packages);
            && Sound(looked.state) && Grows(s, looked.state) && looked.state.requests == s.requests
            && forall p :: p in packages ==> Key(language, p) in looked.state.known || p in looked.missing
    decreases |packages|
  {
    if packages != [] {
      var key := Key(language, packages[0]);
      var t := Remember(s, key);
      RememberKeeps(s, key);
      LookUpKeeps(t, language, packages[1..]);
      var looked := LookUp(t, language, packages[1..]);
      GrowsOn(s, t, looked.state);
      assert Cached(s, key) ==> key in t.known;
    }
  }

  lemma AskKeeps(s: State, language: string, packages: seq<string>)
    requires Inv(s)
    ensures Inv(Ask(s, language, packages)) && Grows(s, Ask(s, language, packages))
  {
    LookUpKeeps(s, language, packages);
    var looked := LookUp(s, language, packages);
    AllServedGrows(s, looked.state);
    var t := Ask(s, language, packages);
    RequestsOnly(looked.state, t);
    forall r | 0 <= r < |t.requests| ensures Served(t, t.requests[r]) {
      if r < |s.requests| {
        ServedGrows(looked.state, t, s.requests[r]);
      }
    }
  }

  lemma RequestsOnly(s: State, t: State)
    requires Sound(s) && t == s.(requests := t.requests)
    ensures Sound(t) && Grows(s, t)
  {
  }

  // ----- admission -----

  lemma WithWriterKeeps(s: State, language: string)
    requires Sound(s)
    ensures var t := WithWriter(s, language); Sound(t) && Grows(s, t) && language in t.writers && t.requests == s.requests
  {
    var t := WithWriter(s, language);
    NewWriter(s.writers, language);
    assert Held(t) && Locked(t) && Honest(t);
  }

  lemma NewWriter(writers: map<string, nat>, language: string)
    ensures language !in writers ==> |writers[language := |writers|]| == |writers| + 1
  {
    var grown := writers[language := |writers|];
    if language !in writers {
      assert grown.Keys == writers.Keys + {language};
      assert |grown.Keys| == |writers.Keys| + 1;
    }
  }

  lemma EnlistKeeps(s: State, key: Key)
    requires Sound(s) && !Cached(s, key) && key.language in s.writers
    ensures var t := Enlist(s, key, s.writers[key.language]);
            && Registered(t) && Locked(t) && Held(t) && Grows(s, t) && t.requests == s.requests && t.writers == s.writers
            && key in t.inflight && t.inflight[key] < |t.jobs| && t.jobs[t.inflight[key]].key == key
  {
    EnlistRegistered(s, key, s.writers[key.language]);
    EnlistLocked(s, key);
  }

  lemma EnlistRegistered(s: State, key: Key, writer: nat)
    requires Registered(s)
    ensures Registered(Enlist(s, key, writer))
  {
    var t := Enlist(s, key, writer);
    assert key !in s.inflight ==> forall j :: 0 <= j < |s.jobs| ==> t.jobs[j] == s.jobs[j];
  }

  lemma EnlistLocked(s: State, key: Key)
    requires Locked(s) && Held(s) && key.language in s.writers
    ensures var t := Enlist(s, key, s.writers[key.language]); Locked(t) && Held(t)
  {
    if key !in s.inflight {
      NewJobLocked(s, Enlist(s, key, s.writers[key.language]));
      BusyHeld(s, Enlist(s, key, s.writers[key.language]));
    }
  }

  lemma NewJobLocked(s: State, t: State)
    requires Locked(s) && t.writers == s.writers && t.busy == s.busy && |t.jobs| == |s.jobs| + 1 && t.jobs[..|s.jobs|] == s.jobs
    requires var job := t.jobs[|s.jobs|]; job.phase == Queued && job.key.language in s.writers && job.writer == s.writers[job.key.language]
    ensures Locked(t)
  {
    assert forall j :: 0 <= j < |s.jobs| ==> t.jobs[j] == s.jobs[j];
  }

  predicate StillWriting(s: State, t: State, w: nat) {
    forall j :: 0 <= j < |s.jobs| && s.jobs[j].phase.Writing? && s.jobs[j].writer == w ==>
      j < |t.jobs| && t.jobs[j].phase.Writing? && t.jobs[j].writer == w
  }

  /** A lock that is still taken is still held when no holder of it went on. */
  lemma BusyHeld(s: State, t: State)
    requires Held(s) && forall w :: w in t.busy ==> w in s.busy && StillWriting(s, t, w)
    ensures forall w :: w in t.busy ==> exists j :: 0 <= j < |t.jobs| && t.jobs[j].phase.Writing? && t.jobs[j].writer == w
  {
    forall w | w in t.busy ensures exists j :: 0 <= j < |t.jobs| && t.jobs[j].phase.Writing? && t.jobs[j].writer == w {
      var j :| 0 <= j < |s.jobs| && s.jobs[j].phase.Writing? && s.jobs[j].writer == w;
      assert t.jobs[j].writer == w;
    }
  }

  lemma EnlistHonest(s: State, key: Key, writer: nat)
    requires Honest(s) && !Cached(s, key)
    ensures Honest(Enlist(s, key, writer))
  {
  }

  lemma {:induction false} AdmitEachKeeps(s: State, language: string, missing: seq<string>)
    requires Sound(s) && language in s.writers
    ensures var admitted := AdmitEach(s, language, s.writers[language], missing);
            && Sound(admitted.state) && Grows(s, admitted.state) && admitted.state.requests == s.requests
            && forall p :: p in missing ==> Key(language, p) in admitted.state.known || Awaited(admitted.state, Key(language, p), admitted.jobs)
    decreases |missing|
  {
    if missing != [] {
      var key := Key(language, missing[0]);
      var rest := missing[1..];
      var writer := s.writers[language];
      if Cached(s, key) {
        var t := Remember(s, key);
        RememberKeeps(s, key);
        AdmitEachKeeps(t, language, rest);
        GrowsOn(s, t, AdmitEach(t, language, writer, rest).state);
      } else {
        var t := Enlist(s, key, writer);
        EnlistKeeps(s, key);
        EnlistHonest(s, key, writer);
        AdmitEachKeeps(t, language, rest);
        AdmitOne(s, t, language, missing);
      }
    }
  }

  lemma AdmitOne(s: State, t: State, language: string, missing: seq<string>)
    requires missing != [] && language in s.writers && t.writers == s.writers && !Cached(s, Key(language, missing[0]))
    requires t == Enlist(s, Key(language, missing[0]), s.writers[language]) && Grows(s, t)
    requires var key := Key(language, missing[0]); key in t.inflight && t.inflight[key] < |t.jobs| && t.jobs[t.inflight[key]].key == key
    requires var rest := AdmitEach(t, language, s.writers[language], missing[1..]);
             && Grows(t, rest.state)
             && forall p :: p in missing[1..] ==> Key(language, p) in rest.state.known || Awaited(rest.state, Key(language, p), rest.jobs)
    ensures var admitted := AdmitEach(s, language, s.writers[language], missing);
            && Grows(s, admitted.state)
            && forall p :: p in missing ==> Key(language, p) in admitted.state.known || Awaited(admitted.state, Key(language, p), admitted.jobs)
  {
    var key := Key(language, missing[0]);
    var rest := AdmitEach(t, language, s.writers[language], missing[1..]);
    var admitted := AdmitEach(s, language, s.writers[language], missing);
    GrowsOn(s, t, rest.state);
    assert admitted.state == rest.state && admitted.jobs == [t.inflight[key]] + rest.jobs;
    assert Awaited(rest.state, key, admitted.jobs) by { assert admitted.jobs[0] == t.inflight[key]; }
    forall p | p in missing[1..] && Awaited(rest.state, Key(language, p), rest.jobs)
      ensures Awaited(rest.state, Key(language, p), admitted.jobs)
    {
      AwaitedLater(rest.state, Key(language, p), rest.jobs, t.inflight[key]);
    }
  }

  lemma AwaitedLater(s: State, key: Key, jobs: seq<nat>, first: nat)
    requires Awaited(s, key, jobs)
    ensures Awaited(s, key, [first] + jobs)
  {
    var i :| 0 <= i < |jobs| && jobs[i] < |s.jobs| && s.jobs[jobs[i]].key == key;
    assert ([first] + jobs)[i + 1] == jobs[i];
  }

  lemma AdmitKeeps(s: State, r: nat)
    requires Inv(s) && r < |s.requests| && s.requests[r].stage.Missed?
    ensures Inv(Admit(s, r)) && Grows(s, Admit(s, r))
  {
    var request := s.requests[r];
    var ready := WithWriter(s, request.language);
    WithWriterKeeps(s, request.language);
    AdmitEachKeeps(ready, request.language, request.stage.missing);
    var admitted := AdmitEach(ready, request.language, ready.writers[request.language], request.stage.missing);
    GrowsOn(s, ready, admitted.state);
    var t := Admit(s, r);
    RequestsOnly(admitted.state, t);
    GrowsOn(s, admitted.state, t);
    AdmitServes(s, r, admitted, t);
  }

  lemma AdmitServes(s: State, r: nat, admitted: Admitted, t: State)
    requires AllServed(s) && Grows(s, t) && Grows(admitted.state, t) && r < |s.requests| && s.requests[r].stage.Missed?
    requires var request := s.requests[r];
             && t.requests == s.requests[r := request.(stage := Awaiting(admitted.jobs))]
             && forall p :: p in request.stage.missing ==>
                  Key(request.language, p) in admitted.state.known || Awaited(admitted.state, Key(request.language, p), admitted.jobs)
    ensures AllServed(t)
  {
    var request := s.requests[r];
    assert Served(s, request);
    forall p | p in request.packages && Key(request.language, p) !in t.known
      ensures Awaited(t, Key(request.language, p), admitted.jobs)
    {
      assert Coming(s, request.language, request.stage, p);
      AwaitedGrows(admitted.state, t, Key(request.language, p), admitted.jobs);
    }
    assert Served(t, t.requests[r]);
    forall q | 0 <= q < |t.requests| && q != r ensures Served(t, t.requests[q]) {
      ServedGrows(s, t, s.requests[q]);
    }
  }

  lemma AwaitedKnown(s: State, key: Key, jobs: seq<nat>)
    requires Honest(s) && forall j :: j in jobs ==> j < |s.jobs| && s.jobs[j].phase == Done(true)
    ensures Awaited(s, key, jobs) ==> key in s.known
  {
    if Awaited(s, key, jobs) {
      var i :| 0 <= i < |jobs| && jobs[i] < |s.jobs| && s.jobs[jobs[i]].key == key;
      assert jobs[i] in jobs;
      assert Succeeded(s.jobs[jobs[i]]);
    }
  }

  /** The awaited jobs all succeeded, so all that was asked for is known. */
  lemma ReturnKeeps(s: State, r: nat)
    requires Inv(s) && Enabled(s, Returning(r))
    ensures Inv(Conclude(s, r, Returned)) && Grows(s, Conclude(s, r, Returned))
  {
    var t := Conclude(s, r, Returned);
    var request := s.requests[r];
    RequestsOnly(s, t);
    assert Served(s, request);
    forall p | p in request.packages ensures Key(request.language, p) in s.known {
      AwaitedKnown(s, Key(request.language, p), request.stage.jobs);
    }
    forall q | 0 <= q < |t.requests| ensures Served(t, t.requests[q]) {
      ServedGrows(s, t, s.requests[q]);
    }
  }

  lemma RaiseKeeps(s: State, r: nat)
    requires Inv(s) && r < |s.requests|
    ensures Inv(Conclude(s, r, Raised)) && Grows(s, Conclude(s, r, Raised))
  {
    var t := Conclude(s, r, Raised);
    RequestsOnly(s, t);
    forall q | 0 <= q < |t.requests| ensures Served(t, t.requests[q]) {
      if q != r {
        ServedGrows(s, t, s.requests[q]);
      }
    }
  }

  /** Nobody is told to await a job that is already over: a failed one is started again. */
  lemma {:induction false} AdmitEachLive(s: State, language: string, writer: nat, missing: seq<string>)
    requires Registered(s)
    ensures var admitted := AdmitEach(s, language, writer, missing);
            && |s.jobs| <= |admitted.state.jobs| && admitted.state.jobs[..|s.jobs|] == s.jobs
            && forall i :: 0 <= i < |admitted.jobs| ==>
                 admitted.jobs[i] < |admitted.state.jobs| && Live(admitted.state.jobs[admitted.jobs[i]])
    decreases |missing|
  {
    if missing != [] {
      var key := Key(language, missing[0]);
      if Cached(s, key) {
        AdmitEachLive(Remember(s, key), language, writer, missing[1..]);
      } else {
        var t := Enlist(s, key, writer);
        EnlistRegistered(s, key, writer);
        AdmitEachLive(t, language, writer, missing[1..]);
        var rest := AdmitEach(t, language, writer, missing[1..]);
        var j := t.inflight[key];
        assert rest.state.jobs[j] == rest.state.jobs[..|t.jobs|][j];
        assert t.jobs[..|s.jobs|] == s.jobs;
        assert rest.state.jobs[..|s.jobs|] == rest.state.jobs[..|t.jobs|][..|s.jobs|];
      }
    }
  }

  lemma RetriedAfterFailure(events: seq<Event>, r: nat)
    requires Runs(Initial, events)
    requires Enabled(Run(Initial, events), Admitting(r))
    ensures var t := Admit(Run(Initial, events), r);
            && t.requests[r].stage.Awaiting?
            && forall i :: 0 <= i < |t.requests[r].stage.jobs| ==>
                 t.requests[r].stage.jobs[i] < |t.jobs| && Live(t.jobs[t.requests[r].stage.jobs[i]])
  {
    InitialInv();
    RunKeeps(Initial, events);
    var s := Run(Initial, events);
    var request := s.requests[r];
    var ready := WithWriter(s, request.language);
    AdmitEachLive(ready, request.language, ready.writers[request.language], request.stage.missing);
  }

  // ----- jobs -----

  lemma BeginKeeps(s: State, j: nat)
    requires Inv(s) && Enabled(s, Beginning(j))
    ensures Inv(Begin(s, j)) && Grows(s, Begin(s, j))
  {
    var t := Begin(s, j);
    PhaseRegistered(s, j, t);
    BeginLocks(s, j);
    BeginHonest(s, j);
    AllServedGrows(s, t);
  }

  lemma BeginHonest(s: State, j: nat)
    requires Honest(s) && Enabled(s, Beginning(j))
    ensures Honest(Begin(s, j))
  {
    var t := Begin(s, j);
    assert forall i :: 0 <= i < |s.jobs| && i != j ==> t.jobs[i] == s.jobs[i];
    assert !Succeeded(t.jobs[j]) && !Succeeded(s.jobs[j]);
  }

  lemma BeginLocks(s: State, j: nat)
    requires Locked(s) && Held(s) && Enabled(s, Beginning(j))
    ensures Locked(Begin(s, j)) && Held(Begin(s, j))
  {
    var t := Begin(s, j);
    forall w | w in t.busy ensures exists i :: 0 <= i < |t.jobs| && t.jobs[i].phase.Writing? && t.jobs[i].writer == w {
      if w == s.jobs[j].writer {
        assert t.jobs[j].writer == w;
      } else {
        var i :| 0 <= i < |s.jobs| && s.jobs[i].phase.Writing? && s.jobs[i].writer == w;
        assert t.jobs[i].writer == w;
      }
    }
  }

  /** A job that goes on without being done keeps its registration. */
  lemma PhaseRegistered(s: State, j: nat, t: State)
    requires Registered(s) && j < |s.jobs| && Live(s.jobs[j])
    requires t.inflight == s.inflight && |t.jobs| == |s.jobs| && t.jobs[j] == s.jobs[j].(phase := t.jobs[j].phase) && Live(t.jobs[j])
    requires forall i :: 0 <= i < |s.jobs| && i != j ==> t.jobs[i] == s.jobs[i]
    ensures Registered(t)
  {
  }

  /** A job that is writing after as before, or not writing after as before, leaves the locks in order. */
  lemma PhaseLocked(s: State, j: nat, t: State)
    requires Locked(s) && Held(s) && j < |s.jobs|
    requires t.writers == s.writers && t.busy == s.busy && |t.jobs| == |s.jobs|
    requires t.jobs[j] == s.jobs[j].(phase := t.jobs[j].phase) && t.jobs[j].phase.Writing? == s.jobs[j].phase.Writing?
    requires forall i :: 0 <= i < |s.jobs| && i != j ==> t.jobs[i] == s.jobs[i]
    ensures Locked(t) && Held(t)
  {
    BusyHeld(s, t);
  }

  lemma StampKeeps(s: State, j: nat)
    requires Inv(s) && Enabled(s, Stamping(j))
    ensures Inv(Stamp(s, j)) && Grows(s, Stamp(s, j))
  {
    var t := Stamp(s, j);
    PhaseRegistered(s, j, t);
    PhaseLocked(s, j, t);
    StampHonest(s, j);
    AllServedGrows(s, t);
  }

  lemma StampHonest(s: State, j: nat)
    requires Honest(s) && Enabled(s, Stamping(j))
    ensures Honest(Stamp(s, j))
  {
    var t := Stamp(s, j);
    assert forall i :: 0 <= i < |s.jobs| && i != j ==> t.jobs[i] == s.jobs[i];
    assert !Succeeded(t.jobs[j]);
  }

  lemma FinishKeeps(s: State, j: nat, ok: bool)
    requires Inv(s) && Enabled(s, Finishing(j, ok))
    ensures Inv(Finish(s, j, ok)) && Grows(s, Finish(s, j, ok))
  {
    var t := Finish(s, j, ok);
    PhaseRegistered(s, j, t);
    FinishLocks(s, j, ok);
    FinishHonest(s, j, ok);
    AllServedGrows(s, t);
  }

  lemma FinishLocks(s: State, j: nat, ok: bool)
    requires Locked(s) && Held(s) && Enabled(s, Finishing(j, ok))
    ensures Locked(Finish(s, j, ok)) && Held(Finish(s, j, ok))
  {
    var t := Finish(s, j, ok);
    forall w | w in t.busy ensures exists i :: 0 <= i < |t.jobs| && t.jobs[i].phase.Writing? && t.jobs[i].writer == w {
      var i :| 0 <= i < |s.jobs| && s.jobs[i].phase.Writing? && s.jobs[i].writer == w;
      assert i != j && t.jobs[i].writer == w;
    }
    forall i | 0 <= i < |t.jobs| && t.jobs[i].phase.Writing? ensures t.jobs[i].writer in t.busy {
      assert i != j && s.jobs[i].writer in s.busy;
    }
  }

  lemma FinishHonest(s: State, j: nat, ok: bool)
    requires Registered(s) && Honest(s) && Enabled(s, Finishing(j, ok))
    ensures Honest(Finish(s, j, ok))
  {
    var t := Finish(s, j, ok);
    forall a, b | 0 <= a < |t.jobs| && 0 <= b < |t.jobs| && a != b && Succeeded(t.jobs[a]) && t.jobs[a].key == t.jobs[b].key
      ensures t.jobs[b].phase == Done(false) || t.jobs[b].phase == Closing(false)
    {
      if a == j {
        assert !Live(s.jobs[b]);
        assert !Succeeded(s.jobs[b]);
      }
    }
  }

  lemma ForgetKeeps(s: State, j: nat)
    requires Inv(s) && Enabled(s, Forgetting(j))
    ensures Inv(Forget(s, j)) && Grows(s, Forget(s, j))
  {
    var t := Forget(s, j);
    ForgetRegistered(s, j);
    PhaseLocked(s, j, t);
    ForgetHonest(s, j);
    AllServedGrows(s, t);
  }

  lemma ForgetRegistered(s: State, j: nat)
    requires Registered(s) && Enabled(s, Forgetting(j))
    ensures Registered(Forget(s, j))
  {
    var t := Forget(s, j);
    assert forall i :: 0 <= i < |s.jobs| && i != j ==> t.jobs[i] == s.jobs[i];
  }

  lemma ForgetHonest(s: State, j: nat)
    requires Honest(s) && Enabled(s, Forgetting(j))
    ensures Honest(Forget(s, j))
  {
    var t := Forget(s, j);
    assert forall i :: 0 <= i < |s.jobs| && i != j ==> t.jobs[i] == s.jobs[i];
    assert Succeeded(t.jobs[j]) == Succeeded(s.jobs[j]);
  }

  lemma AppearKeeps(s: State, key: Key)
    requires Inv(s)
    ensures var t := s.(markers := s.markers + {key}); Inv(t) && Grows(s, t)
  {
    AllServedGrows(s, s.(markers := s.markers + {key}));
  }

  // ----- every run -----

  lemma StepKeeps(s: State, e: Event)
    requires Inv(s) && Enabled(s, e)
    ensures Inv(Step(s, e)) && Grows(s, Step(s, e))
  {
    match e
    case Asking(language, packages) => AskKeeps(s, language, packages);
    case Admitting(r) => AdmitKeeps(s, r);
    case Returning(r) => ReturnKeeps(s, r);
    case Raising(r) => RaiseKeeps(s, r);
    case Beginning(j) => BeginKeeps(s, j);
    case Stamping(j) => StampKeeps(s, j);
    case Finishing(j, ok) => FinishKeeps(s, j, ok);
    case Forgetting(j) => ForgetKeeps(s, j);
    case Appearing(key) => AppearKeeps(s, key);
  }

  lemma {:induction false} RunKeeps(s: State, events: seq<Event>)
    requires Inv(s) && Runs(s, events)
    ensures Inv(Run(s, events)) && Grows(s, Run(s, events))
    decreases |events|
  {
    if events != [] {
      StepKeeps(s, events[0]);
      RunKeeps(Step(s, events[0]), events[1..]);
      GrowsOn(s, Step(s, events[0]), Run(s, events));
    }
  }

  /** Two jobs writing at once are writing to different volumes. */
  predicate SingleWriter(s: State) {
    forall i, j :: 0 <= i < j < |s.jobs| && s.jobs[i].phase.Writing? && s.jobs[j].phase.Writing? ==>
      s.jobs[i].key.language != s.jobs[j].key.language
  }

  /** Two jobs for one package are never both unfinished, and never both successful. */
  predicate Deduplicated(s: State) {
    forall i, j :: 0 <= i < j < |s.jobs| && s.jobs[i].key == s.jobs[j].key ==>
      !(Live(s.jobs[i]) && Live(s.jobs[j])) && !(Succeeded(s.jobs[i]) && Succeeded(s.jobs[j]))
  }

  /** A job that is done is registered nowhere, so nobody will await it. */
  predicate Forgotten(s: State) {
    forall k :: k in s.inflight ==> s.inflight[k] < |s.jobs| && !s.jobs[s.inflight[k]].phase.Done?
  }

  /** A request that returned has everything it asked for on the volume. */
  predicate Delivered(s: State) {
    forall r, p :: 0 <= r < |s.requests| && s.requests[r].stage == Returned && p in s.requests[r].packages ==>
      Key(s.requests[r].language, p) in s.markers
  }

  /** A queued job can begin, or a writer that can finish stands before it. */
  ghost predicate NoneStuck(s: State) {
    forall j :: 0 <= j < |s.jobs| && s.jobs[j].phase == Queued ==>
      Enabled(s, Beginning(j)) || exists i :: 0 <= i < |s.jobs| && s.jobs[i].key.language == s.jobs[j].key.language && Enabled(s, Finishing(i, false))
  }

  lemma InitialInv()
    ensures Inv(Initial)
  {
  }

  /** In every interleaving. */
  lemma InstallSafe(events: seq<Event>)
    requires Runs(Initial, events)
    ensures var s := Run(Initial, events);
            SingleWriter(s) && Deduplicated(s) && Forgotten(s) && Delivered(s) && NoneStuck(s)
  {
    InitialInv();
    RunKeeps(Initial, events);
    var s := Run(Initial, events);
    forall i, j | 0 <= i < j < |s.jobs| && s.jobs[i].phase.Writing? && s.jobs[j].phase.Writing?
      ensures s.jobs[i].key.language != s.jobs[j].key.language
    {
      assert s.jobs[i].writer != s.jobs[j].writer;
    }
    forall r, p | 0 <= r < |s.requests| && s.requests[r].stage == Returned && p in s.requests[r].packages
      ensures Key(s.requests[r].language, p) in s.markers
    {
      assert Served(s, s.requests[r]);
    }
    NoneStuckIn(s);
  }

  lemma NoneStuckIn(s: State)
    requires Locked(s) && Held(s)
    ensures NoneStuck(s)
  {
    forall j | 0 <= j < |s.jobs| && s.jobs[j].phase == Queued && s.jobs[j].writer in s.busy
      ensures exists i :: 0 <= i < |s.jobs| && s.jobs[i].key.language == s.jobs[j].key.language && Enabled(s, Finishing(i, false))
    {
      var i :| 0 <= i < |s.jobs| && s.jobs[i].phase.Writing? && s.jobs[i].writer == s.jobs[j].writer;
      assert s.jobs[i].key.language == s.jobs[j].key.language;
      assert Enabled(s, Finishing(i, false));
    }
  }

  // ----- what a request finds -----

  lemma {:induction false} LookUpRemembers(s: State, language: string, packages: seq<string>)
    ensures LookUp(s, language, packages).state == s.(known := s.known + set p | p in packages && Key(language, p) in s.markers :: Key(language, p))
    decreases |packages|
  {
    if packages != [] {
      LookUpRemembers(Remember(s, Key(language, packages[0])), language, packages[1..]);
      assert packages == [packages[0]] + packages[1..];
    }
    var found := set p | p in packages && Key(language, p) in s.markers :: Key(language, p);
    assert LookUp(s, language, packages).state.known == s.known + found;
  }

  lemma {:induction false} MissingSame(s: State, t: State, language: string, packages: seq<string>)
    requires t.markers == s.markers && forall p :: p in packages ==> Cached(t, Key(language, p)) == Cached(s, Key(language, p))
    ensures LookUp(t, language, packages).missing == LookUp(s, language, packages).missing
    decreases |packages|
  {
    if packages != [] {
      MissingSame(Remember(s, Key(language, packages[0])), Remember(t, Key(language, packages[0])), language, packages[1..]);
    }
  }

  /** What is missing is what is neither known nor on the volume, in the order asked, and as often as it is asked for. */
  lemma MissingExactly(s: State, language: string, before: seq<string>, package: string, after: seq<string>)
    ensures LookUp(s, language, []).missing == []
    ensures LookUp(s, language, before + ([package] + after)).missing ==
            LookUp(s, language, before).missing
            + (if Key(language, package) in s.known + s.markers then [] else [package])
            + LookUp(s, language, after).missing
  {
    MissingJoins(s, language, before, [package] + after);
    MissingJoins(s, language, [package], after);
    assert [package][1..] == [];
  }

  lemma {:induction false} MissingJoins(s: State, language: string, before: seq<string>, after: seq<string>)
    ensures LookUp(s, language, before + after).missing == LookUp(s, language, before).missing + LookUp(s, language, after).missing
    decreases |before|
  {
    if before == [] {
      assert before + after == after;
    } else {
      var next := Remember(s, Key(language, before[0]));
      assert (before + after)[1..] == before[1..] + after;
      MissingJoins(next, language, before[1..], after);
      MissingSame(s, next, language, after);
    }
  }

  lemma {:induction false} NothingMissing(s: State, language: string, packages: seq<string>)
    ensures LookUp(s, language, packages).missing == [] <==> forall p :: p in packages ==> Key(language, p) in s.known + s.markers
    decreases |packages|
  {
    if packages != [] {
      NothingMissing(Remember(s, Key(language, packages[0])), language, packages[1..]);
      assert packages == [packages[0]] + packages[1..];
    }
  }

  /** A request returns at once exactly when all it asks for is cached, and starts no job before it is admitted. */
  lemma AskMeans(s: State, language: string, packages: seq<string>)
    ensures var t := Step(s, Asking(language, packages));
            && |t.requests| == |s.requests| + 1 && t.requests[..|s.requests|] == s.requests
            && t.jobs == s.jobs && t.inflight == s.inflight && t.markers == s.markers
            && var made := t.requests[|s.requests|];
               && made.language == language && made.packages == packages
               && (made.stage == Returned <==> forall p :: p in packages ==> Key(language, p) in s.known + s.markers)
               && (made.stage != Returned ==> made.stage == Missed(LookUp(s, language, packages).missing))
  {
    LookUpRemembers(s, language, packages);
    NothingMissing(s, language, packages);
  }
}
