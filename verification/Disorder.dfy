/** What a worker risks that registers a job while the deferred processingJobs.Delete of an earlier worker
    for the same job is still to come: from any such moment there is a way on, in which everybody else keeps
    to the rules, on which the orphan checker fails the live job and the job ends in two places. */
module Disorder {
  import opened Jobs
  import opened Storage
  import opened JobRows
  import L = Lifecycle
  import O = OpenRegime
  import opened SingleProcessor
  import opened Exclusivity
  import opened Ways

  // ---- ways on ----

  /** The actions lead from one state to the other, and every registration among them is orderly. */
  ghost predicate Path(s: System, rest: seq<Action>, s': System) {
    Leads(s, rest, s', (x, a) => Orderly(x, a))
  }

  lemma Longer(s: System, rest: seq<Action>, s': System, a: Action)
    requires Path(s, rest, s') && Enabled(s', a) && Orderly(s', a)
    ensures Path(s, rest + [a], Next(s', a))
  {
    hide Enabled, Orderly, Next;
    OneMore(s, rest, s', a, (x, b) => Orderly(x, b));
  }

  lemma {:induction false} InvOnPath(s: System, rest: seq<Action>, s': System)
    requires Inv(s) && Path(s, rest, s')
    ensures Inv(s')
    decreases |rest|
  {
    hide Enabled, Orderly, Next, Inv;
    if rest != [] {
      InvStep(s, rest[0]);
      InvOnPath(Next(s, rest[0]), rest[1..], s');
    }
  }

  // ---- a live job that nobody beats for ----

  /** The worker's job is in nobody's sight, its last heartbeat was at `beat`, and the checker is at work. */
  ghost predicate Hidden(s: System, w: nat, job: ProcessingJob, beat: Time) {
    && Core(s) && RoundIsOnTime(s) && !s.orphanLoopDone && !s.emitterDone
    && w in s.workers && s.workers[w] == Working(job)
    && job.id !in s.inFlight && job.id !in s.toBeat
    && RowsIn(s, job.id).heartbeat == Some(beat)
  }

  function Leavers(s: System): set<nat> {
    set v | v in s.workers && s.workers[v].Leaving?
  }

  function Claimers(s: System): set<nat> {
    set v | v in s.workers && s.workers[v].Claimed?
  }

  /** An action that is about other jobs and other workers does not bring the job back into sight. */
  lemma StaysHidden(s: System, a: Action, w: nat, job: ProcessingJob, beat: Time)
    requires Hidden(s, w, job, beat) && Enabled(s, a) && !a.ReadOrphans? && a != Restart
    requires StepOf(s, a).Some? ==> O.Subject(StepOf(s, a).value) != Some(job.id)
    requires !Next(s, a).orphanLoopDone && !Next(s, a).emitterDone && RoundIsOnTime(Next(s, a))
    requires w in Next(s, a).workers && Next(s, a).workers[w] == Working(job)
    requires job.id !in Next(s, a).inFlight
    ensures Hidden(Next(s, a), w, job, beat)
  {
    hide Core, RoundIsOnTime;
    CoreMeansIdentity(s);
    RowsAfterAction(s, a, job.id);
    CoreStep(s, a);
  }

  lemma CoreMeansIdentity(s: System)
    requires Core(s)
    ensures O.Identity(s.world)
  {
  }

  // ---- everybody else settles down ----

  lemma LeaverGoes(s: System, w: nat, job: ProcessingJob, beat: Time, v: nat)
    requires Hidden(s, w, job, beat) && s.toBeat == {} && v in Leavers(s)
    ensures var a := Unregister(v);
      && Enabled(s, a) && Orderly(s, a) && Hidden(Next(s, a), w, job, beat)
      && Next(s, a).toBeat == {} && Leavers(Next(s, a)) == Leavers(s) - {v}
  {
    StaysHidden(s, Unregister(v), w, job, beat);
  }

  lemma {:induction false} LeaversGo(s0: System, rest0: seq<Action>, s: System, w: nat, job: ProcessingJob, beat: Time)
    returns (rest: seq<Action>, s': System)
    requires Path(s0, rest0, s) && Hidden(s, w, job, beat) && s.toBeat == {}
    ensures Path(s0, rest, s') && Hidden(s', w, job, beat) && s'.toBeat == {} && Leavers(s') == {}
    decreases Leavers(s)
  {
    hide Enabled, Orderly, Next, Hidden, Path;
    rest, s' := rest0, s;
    if Leavers(s) != {} {
      var v :| v in Leavers(s);
      LeaverGoes(s, w, job, beat, v);
      Longer(s0, rest0, s, Unregister(v));
      rest, s' := LeaversGo(s0, rest0 + [Unregister(v)], Next(s, Unregister(v)), w, job, beat);
    }
  }

  lemma ClaimerRegisters(s: System, w: nat, job: ProcessingJob, beat: Time, v: nat)
    requires Hidden(s, w, job, beat) && s.toBeat == {} && Leavers(s) == {} && v in Claimers(s)
    ensures var a := Register(v);
      && Enabled(s, a) && Orderly(s, a) && Hidden(Next(s, a), w, job, beat)
      && Next(s, a).toBeat == {} && Leavers(Next(s, a)) == {} && Claimers(Next(s, a)) == Claimers(s) - {v}
  {
    assert Holds(s, v) && Holds(s, w) && v != w;
    assert forall u :: u in s.workers ==> u !in Leavers(s);
    StaysHidden(s, Register(v), w, job, beat);
  }

  lemma {:induction false} ClaimersRegister(s0: System, rest0: seq<Action>, s: System, w: nat, job: ProcessingJob, beat: Time)
    returns (rest: seq<Action>, s': System)
    requires Path(s0, rest0, s) && Hidden(s, w, job, beat) && s.toBeat == {} && Leavers(s) == {}
    ensures Path(s0, rest, s') && Hidden(s', w, job, beat) && s'.toBeat == {} && Leavers(s') == {} && Claimers(s') == {}
    decreases Claimers(s)
  {
    hide Enabled, Orderly, Next, Hidden, Path;
    rest, s' := rest0, s;
    if Claimers(s) != {} {
      var v :| v in Claimers(s);
      ClaimerRegisters(s, w, job, beat, v);
      Longer(s0, rest0, s, Register(v));
      rest, s' := ClaimersRegister(s0, rest0 + [Register(v)], Next(s, Register(v)), w, job, beat);
    }
  }

  /** The checker's fail of an entry that is still current commits. */
  lemma OrphanCommits(s: System)
    requires Core(s) && s.orphanBatch != []
    ensures Commits(s, OrphanNext(true))
  {
    var id := s.orphanBatch[0].id;
    RowsAfterAction(s, OrphanNext(true), id);
    assert Places(RowsIn(s, id), id in s.world.discarded) == One(id in s.world.accepted);
  }

  lemma OrphanFails(s: System, w: nat, job: ProcessingJob, beat: Time)
    requires Hidden(s, w, job, beat) && s.orphanBatch != []
    ensures var a := OrphanNext(true);
      && Enabled(s, a) && Orderly(s, a) && Hidden(Next(s, a), w, job, beat)
      && Next(s, a).toBeat == s.toBeat && Next(s, a).workers == s.workers && Next(s, a).orphanBatch == s.orphanBatch[1..]
  {
    OrphanCommits(s);
    assert Holds(s, w) && s.orphanBatch[0].id != job.id;
    StaysHidden(s, OrphanNext(true), w, job, beat);
  }

  lemma {:induction false} OrphansFail(s0: System, rest0: seq<Action>, s: System, w: nat, job: ProcessingJob, beat: Time)
    returns (rest: seq<Action>, s': System)
    requires Path(s0, rest0, s) && Hidden(s, w, job, beat)
    ensures Path(s0, rest, s') && Hidden(s', w, job, beat)
    ensures s'.toBeat == s.toBeat && s'.workers == s.workers && s'.orphanBatch == []
    decreases |s.orphanBatch|
  {
    hide Enabled, Orderly, Next, Hidden, Path;
    rest, s' := rest0, s;
    if s.orphanBatch != [] {
      OrphanFails(s, w, job, beat);
      Longer(s0, rest0, s, OrphanNext(true));
      rest, s' := OrphansFail(s0, rest0 + [OrphanNext(true)], Next(s, OrphanNext(true)), w, job, beat);
    }
  }

  // ---- time passes without a heartbeat ----

  /** All that is left to happen is that time passes and the emitter beats for other jobs. */
  ghost predicate Waiting(s: System, w: nat, job: ProcessingJob, beat: Time) {
    Hidden(s, w, job, beat) && s.orphanBatch == [] && Claimers(s) == {}
  }

  lemma OtherBeat(s: System, w: nat, job: ProcessingJob, beat: Time, id: JobId)
    requires Waiting(s, w, job, beat) && id in s.toBeat
    ensures var a := Beat(id);
      && Enabled(s, a) && Orderly(s, a) && Waiting(Next(s, a), w, job, beat)
      && Next(s, a).toBeat == s.toBeat - {id} && Next(s, a).roundStart == s.roundStart
  {
    StaysHidden(s, Beat(id), w, job, beat);
    assert Claimers(Next(s, Beat(id))) == Claimers(s);
  }

  lemma {:induction false} OtherBeats(s0: System, rest0: seq<Action>, s: System, w: nat, job: ProcessingJob, beat: Time)
    returns (rest: seq<Action>, s': System)
    requires Path(s0, rest0, s) && Waiting(s, w, job, beat)
    ensures Path(s0, rest, s') && Waiting(s', w, job, beat) && s'.toBeat == {} && s'.roundStart == s.roundStart
    decreases s.toBeat
  {
    hide Enabled, Orderly, Next, Waiting, Path;
    rest, s' := rest0, s;
    if s.toBeat != {} {
      var id :| id in s.toBeat;
      OtherBeat(s, w, job, beat, id);
      Longer(s0, rest0, s, Beat(id));
      rest, s' := OtherBeats(s0, rest0 + [Beat(id)], Next(s, Beat(id)), w, job, beat);
    }
  }

  /** The clock runs up to the end of the round. */
  lemma RoundEnds(s: System, w: nat, job: ProcessingJob, beat: Time) returns (d: nat)
    requires Waiting(s, w, job, beat)
    ensures var a := Pass(d);
      && Enabled(s, a) && Orderly(s, a) && Waiting(Next(s, a), w, job, beat)
      && Next(s, a).toBeat == s.toBeat && Next(s, a).roundStart == s.roundStart
      && Next(s, a).now == s.roundStart + HEARTBEAT_TICKER
  {
    d := s.roundStart + HEARTBEAT_TICKER - s.now;
    assert forall v :: v in s.workers && s.workers[v].Claimed? ==> v in Claimers(s);
    StaysHidden(s, Pass(d), w, job, beat);
    assert Claimers(Next(s, Pass(d))) == Claimers(s);
  }

  lemma RoundBegins(s: System, w: nat, job: ProcessingJob, beat: Time)
    requires Waiting(s, w, job, beat) && s.toBeat == {}
    ensures var a := StartRound;
      Enabled(s, a) && Orderly(s, a) && Waiting(Next(s, a), w, job, beat) && Next(s, a).roundStart == s.now
  {
    StaysHiddenInRound(s, w, job, beat);
    assert Claimers(Next(s, StartRound)) == Claimers(s);
  }

  lemma StaysHiddenInRound(s: System, w: nat, job: ProcessingJob, beat: Time)
    requires Hidden(s, w, job, beat) && s.toBeat == {}
    ensures Hidden(Next(s, StartRound), w, job, beat)
  {
    CoreStep(s, StartRound);
  }

  /** Round after round, until the last heartbeat is too old. */
  lemma {:induction false} TheJobGrowsStale(s0: System, rest0: seq<Action>, s: System, w: nat, job: ProcessingJob, beat: Time)
    returns (rest: seq<Action>, s': System)
    requires Path(s0, rest0, s) && Waiting(s, w, job, beat) && s.toBeat == {}
    ensures Path(s0, rest, s') && Waiting(s', w, job, beat) && beat < s'.now - ORPHAN_AGE
    decreases beat + ORPHAN_AGE + HEARTBEAT_TICKER - s.roundStart
  {
    hide Enabled, Orderly, Next, Path, Hidden;
    rest, s' := rest0, s;
    if beat >= s.now - ORPHAN_AGE {
      var d := RoundEnds(s, w, job, beat);
      Longer(s0, rest0, s, Pass(d));
      var s1, rest1 := Next(s, Pass(d)), rest0 + [Pass(d)];
      RoundBegins(s1, w, job, beat);
      Longer(s0, rest1, s1, StartRound);
      var rest2, s2 := OtherBeats(s0, rest1 + [StartRound], Next(s1, StartRound), w, job, beat);
      HiddenIsOnTime(s, w, job, beat);
      rest, s' := TheJobGrowsStale(s0, rest2, s2, w, job, beat);
    }
  }

  lemma HiddenIsOnTime(s: System, w: nat, job: ProcessingJob, beat: Time)
    requires Hidden(s, w, job, beat)
    ensures s.roundStart <= s.now <= s.roundStart + HEARTBEAT_TICKER
  {
  }

  // ---- the checker comes ----

  /** Whatever is due in a table can be listed. */
  lemma {:induction false} ListingExists<T(!new)>(m: map<JobId, Job<T>>, due: Job<T> -> bool) returns (batch: seq<Job<T>>)
    requires forall id :: id in m ==> m[id].id == id
    ensures Lists(batch, m, due)
    decreases m.Keys
  {
    batch := [];
    if m.Keys != {} {
      var id :| id in m.Keys;
      var rest := ListingExists(m - {id}, due);
      batch := rest;
      if due(m[id]) { batch := [m[id]] + rest; }
      ListedFirst(m, id, due, rest, batch);
    }
  }

  lemma ListedFirst<T(!new)>(m: map<JobId, Job<T>>, id: JobId, due: Job<T> -> bool, rest: seq<Job<T>>, batch: seq<Job<T>>)
    requires (forall k :: k in m ==> m[k].id == k) && id in m && Lists(rest, m - {id}, due)
    requires batch == if due(m[id]) then [m[id]] + rest else rest
    ensures Lists(batch, m, due)
  {
    forall k | k in m && due(m[k]) ensures m[k] in batch {
      if k != id {
        assert (m - {id})[k] in rest;
      }
    }
    if due(m[id]) {
      assert batch[0] == m[id];
      forall i | 1 <= i < |batch| ensures batch[i] == rest[i - 1] && batch[i].id != id {
      }
      forall i, j | 0 <= i < j < |batch| ensures batch[i].id != batch[j].id {
        if i > 0 {
          assert rest[i - 1].id != rest[j - 1].id;
        }
      }
    }
  }

  /** The checker may select the worker's job first. */
  lemma Selected(s: System, w: nat, job: ProcessingJob, beat: Time) returns (a: Action)
    requires Waiting(s, w, job, beat) && beat < s.now - ORPHAN_AGE
    ensures Enabled(s, a) && Orderly(s, a) && a.ReadOrphans? && a.stale != [] && a.stale[0] == job
  {
    var t := s.world.tables;
    var due := (j: ProcessingJob) => StaleRow(t, j.id, s.now - ORPHAN_AGE);
    O.IdentityMeansKeyed(s.world);
    assert Holds(s, w) && t.processing[job.id] == job;
    var others := ListingExists(t.processing - {job.id}, due);
    ListedFirst(t.processing, job.id, due, others, [job] + others);
    a := ReadOrphans(s.now, [job] + others);
  }

  lemma RowEndsTwice(r: Rows, job: ProcessingJob, now: Time)
    requires r.processing == Some(job) && Places(r, false) == 1
    ensures var r' := O.RowsNext(O.RowsNext(r, O.Fail(job, ORPHAN_ERROR, now)), O.Complete(job, now));
      Places(r', L.Exhausted(job)) == 2
  {
  }

  lemma FailOfLiveJob(s: System, w: nat, job: ProcessingJob)
    requires O.Identity(s.world) && RowsIn(s, job.id).processing == Some(job)
    requires s.orphanBatch != [] && s.orphanBatch[0] == job
    ensures var a := OrphanNext(true);
      && Enabled(s, a) && Orderly(s, a) && O.Identity(Next(s, a).world)
      && RowsIn(Next(s, a), job.id) == O.RowsNext(RowsIn(s, job.id), O.Fail(job, ORPHAN_ERROR, s.now))
      && Next(s, a).workers == s.workers && Next(s, a).now == s.now && job in Next(s, a).world.claims
      && (job.id in Next(s, a).world.discarded <==> job.id in s.world.discarded || L.Exhausted(job))
  {
    assert job in s.world.tables.processing.Values;
    RowsAfterAction(s, OrphanNext(true), job.id);
    O.IdentityStep(s.world, O.Fail(job, ORPHAN_ERROR, s.now));
  }

  lemma CompletionOfFailedJob(s: System, w: nat, job: ProcessingJob)
    requires O.Identity(s.world) && w in s.workers && s.workers[w] == Working(job)
    ensures var a := CompleteJob(w, true);
      && Enabled(s, a) && Orderly(s, a)
      && RowsIn(Next(s, a), job.id) == O.RowsNext(RowsIn(s, job.id), O.Complete(job, s.now))
      && Next(s, a).world.discarded == s.world.discarded
  {
    RowsAfterAction(s, CompleteJob(w, true), job.id);
  }

  /** The checker fails the job, the worker completes it, and it is in two places. */
  lemma EndsTwice(s: System, w: nat, job: ProcessingJob)
    requires O.Identity(s.world) && Exclusive(s.world) && RowsIn(s, job.id).processing == Some(job)
    requires w in s.workers && s.workers[w] == Working(job) && s.orphanBatch != [] && s.orphanBatch[0] == job
    ensures var s1 := Next(s, OrphanNext(true)); var s2 := Next(s1, CompleteJob(w, true));
      && Enabled(s, OrphanNext(true)) && Orderly(s, OrphanNext(true))
      && Enabled(s1, CompleteJob(w, true)) && Orderly(s1, CompleteJob(w, true))
      && !Exclusive(s2.world)
  {
    hide Next, Enabled, Orderly, O.Identity, O.RowsNext;
    assert Places(RowsIn(s, job.id), job.id in s.world.discarded) == One(job.id in s.world.accepted);
    FailOfLiveJob(s, w, job);
    var s1 := Next(s, OrphanNext(true));
    CompletionOfFailedJob(s1, w, job);
    RowEndsTwice(RowsIn(s, job.id), job, s.now);
    var s2 := Next(s1, CompleteJob(w, true));
    assert Places(RowsIn(s2, job.id), job.id in s2.world.discarded) == 2;
  }

  // ---- the converse ----

  /** The earlier worker's Delete comes right after the registration. */
  lemma LosesItsEntry(s: System, w: nat, earlier: nat)
    requires Inv(s) && Enabled(s, Register(w)) && !s.orphanLoopDone && !s.emitterDone
    requires SharesEntry(s, earlier, JobOf(s, w).id)
    ensures RowsIn(s, JobOf(s, w).id).heartbeat.Some?
    ensures var s1 := Next(s, Register(w));
      && Enabled(s1, Unregister(earlier)) && Orderly(s1, Unregister(earlier))
      && Hidden(Next(s1, Unregister(earlier)), w, JobOf(s, w), RowsIn(s, JobOf(s, w).id).heartbeat.value)
      && Next(s1, Unregister(earlier)).toBeat == {}
  {
    assert Holds(s, w) && Fresh(s, w);
    CoreStep(s, Register(w));
    CoreStep(Next(s, Register(w)), Unregister(earlier));
  }

  lemma OneAction(s: System, a: Action)
    requires Enabled(s, a) && Orderly(s, a)
    ensures Path(s, [a], Next(s, a))
  {
    assert [a][1..] == [];
  }

  lemma HiddenHolds(s: System, w: nat, job: ProcessingJob, beat: Time)
    requires Hidden(s, w, job, beat)
    ensures O.Identity(s.world) && Exclusive(s.world) && RowsIn(s, job.id).processing == Some(job)
  {
    assert Holds(s, w);
  }

  lemma GrowsStale(s0: System, rest0: seq<Action>, s: System, w: nat, job: ProcessingJob, beat: Time)
    returns (rest: seq<Action>, s': System)
    requires Path(s0, rest0, s) && Hidden(s, w, job, beat) && s.toBeat == {}
    ensures Path(s0, rest, s') && Waiting(s', w, job, beat) && beat < s'.now - ORPHAN_AGE
  {
    hide Enabled, Orderly, Next, Path, Hidden;
    rest, s' := LeaversGo(s0, rest0, s, w, job, beat);
    rest, s' := ClaimersRegister(s0, rest, s', w, job, beat);
    rest, s' := OrphansFail(s0, rest, s', w, job, beat);
    rest, s' := TheJobGrowsStale(s0, rest, s', w, job, beat);
  }

  /** The worker is at work on a job that is in one place, and the orphan checker is about to fail it. */
  ghost predicate SelectedAlive(s: System, w: nat, job: ProcessingJob) {
    && O.Identity(s.world) && Exclusive(s.world) && RowsIn(s, job.id).processing == Some(job)
    && w in s.workers && s.workers[w] == Working(job)
    && s.orphanBatch != [] && s.orphanBatch[0] == job
  }

  lemma SelectionKeeps(s: System, a: Action)
    requires Enabled(s, a) && a.ReadOrphans?
    ensures Next(s, a).world == s.world && Next(s, a).workers == s.workers && Next(s, a).orphanBatch == a.stale
  {
  }

  /** Once another worker's Delete can still take the entry of a job that is being registered, a way on leads
      to a state in which the checker holds the live job. */
  lemma DisorderIsSelected(s: System, w: nat) returns (rest: seq<Action>, selected: System, job: ProcessingJob)
    requires Inv(s) && Enabled(s, Register(w)) && !Orderly(s, Register(w))
    ensures Path(Next(s, Register(w)), rest, selected) && SelectedAlive(selected, w, job) && job == s.workers[w].job
  {
    job := JobOf(s, w);
    var earlier :| SharesEntry(s, earlier, job.id);
    LosesItsEntry(s, w, earlier);
    var beat, s1 := RowsIn(s, job.id).heartbeat.value, Next(s, Register(w));
    OneAction(s1, Unregister(earlier));
    var stale, s2 := GrowsStale(s1, [Unregister(earlier)], Next(s1, Unregister(earlier)), w, job, beat);
    var a := Selected(s2, w, job, beat);
    HiddenHolds(s2, w, job, beat);
    SelectionKeeps(s2, a);
    Longer(s1, stale, s2, a);
    rest, selected := stale + [a], Next(s2, a);
  }

  /** And a way on from there leads to a state in which a job is in two places. */
  lemma DisorderDoesHarm(s: System, w: nat) returns (rest: seq<Action>, selected: System, more: seq<Action>, end: System)
    requires Inv(s) && Enabled(s, Register(w)) && !Orderly(s, Register(w))
    ensures Path(Next(s, Register(w)), rest, selected)
    ensures w in selected.workers && selected.workers[w] == Working(s.workers[w].job)
    ensures s.workers[w].job in selected.orphanBatch
    ensures Path(Next(s, Register(w)), more, end) && rest <= more && !Exclusive(end.world)
  {
    hide Enabled, Orderly, Next, Path, Exclusive, O.Identity;
    var s0 := Next(s, Register(w));
    var job;
    rest, selected, job := DisorderIsSelected(s, w);
    EndsTwice(selected, w, job);
    var s1 := Next(selected, OrphanNext(true));
    Longer(s0, rest, selected, OrphanNext(true));
    Longer(s0, rest + [OrphanNext(true)], s1, CompleteJob(w, true));
    more, end := rest + [OrphanNext(true)] + [CompleteJob(w, true)], Next(s1, CompleteJob(w, true));
  }

  // ---- what a registration risks, exactly ----

  /** No orderly way on takes a job to two places. */
  ghost predicate StaysExclusive(s: System) {
    forall rest, end :: Path(s, rest, end) ==> Exclusive(end.world)
  }

  predicate SparesLiveJobs(s: System) {
    forall v :: v in s.workers && Live(s.workers[v]) ==> s.workers[v].job !in s.orphanBatch
  }

  /** On no orderly way on does the checker get hold of a live job. */
  ghost predicate AlwaysSparesLiveJobs(s: System) {
    forall rest, end :: Path(s, rest, end) ==> SparesLiveJobs(end)
  }

  lemma OrderlyIsSafe(s: System, w: nat)
    requires Inv(s) && Enabled(s, Register(w)) && Orderly(s, Register(w))
    ensures StaysExclusive(Next(s, Register(w))) && AlwaysSparesLiveJobs(Next(s, Register(w)))
  {
    hide Enabled, Orderly, Next, Path;
    var s0 := Next(s, Register(w));
    InvStep(s, Register(w));
    forall rest, end | Path(s0, rest, end) ensures Exclusive(end.world) && SparesLiveJobs(end) {
      InvOnPath(s0, rest, end);
      assert forall v :: v in end.workers && Live(end.workers[v]) ==> Holds(end, v);
    }
  }

  lemma DisorderIsUnsafe(s: System, w: nat)
    requires Inv(s) && Enabled(s, Register(w)) && !Orderly(s, Register(w))
    ensures !StaysExclusive(Next(s, Register(w))) && !AlwaysSparesLiveJobs(Next(s, Register(w)))
  {
    hide Enabled, Orderly, Next, Path, Exclusive, Inv;
    var rest, selected, more, end := DisorderDoesHarm(s, w);
    assert !SparesLiveJobs(selected);
  }

  /** After an orderly run, registering a job is safe, whatever orderly actions follow, exactly when no earlier
      worker's Delete of it is still to come, or the emitter or the orphan checker has stopped for good. */
  lemma RegisterIsSafeIff(run: seq<Action>, w: nat)
    requires IsOrderlyRun(run) && Enabled(After(run), Register(w))
    ensures Orderly(After(run), Register(w)) <==> StaysExclusive(Next(After(run), Register(w)))
  {
    hide Enabled, Orderly, Next, Inv, StaysExclusive, AlwaysSparesLiveJobs;
    OrderlyRunsAreSafe(run);
    if Orderly(After(run), Register(w)) { OrderlyIsSafe(After(run), w); } else { DisorderIsUnsafe(After(run), w); }
  }

  /** And so is the promise that the checker never gets hold of a live job. */
  lemma LiveJobsAreSafeIff(run: seq<Action>, w: nat)
    requires IsOrderlyRun(run) && Enabled(After(run), Register(w))
    ensures Orderly(After(run), Register(w)) <==> AlwaysSparesLiveJobs(Next(After(run), Register(w)))
  {
    hide Enabled, Orderly, Next, Inv, StaysExclusive, AlwaysSparesLiveJobs;
    OrderlyRunsAreSafe(run);
    if Orderly(After(run), Register(w)) { OrderlyIsSafe(After(run), w); } else { DisorderIsUnsafe(After(run), w); }
  }
}
