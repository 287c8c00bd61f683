/**
 * Supervised upgrades: the files that survive a crash, the steps of the supervisor and of the worker, and what the
 * stored result says about the installed binary.
 */
module Upgrade {
  import opened AgentTypes

  /** A file: what a crash is sure to keep, and what a reader sees now. */
  datatype Cell<T> = Cell(kept: T, seen: T)
  {
    function Put(v: T): Cell<T> { Cell(kept, v) }
    function Synced(): Cell<T> { Cell(seen, seen) }
  }

  datatype Phase = Staged | Installing | Testing
  datatype Journal = Journal(op: Id, phase: Phase)

  datatype Status = Succeeded | RolledBack | Failed
  datatype Outcome = Outcome(op: Id, status: Status)

  /** Contents of executables are opaque; `release(op)` is the verified release that an operation names. */
  type Releases = Id -> Id

  /** Where the supervisor is. `Finish` counts its steps: write the result, sync, remove the journal and the health report, sync. */
  datatype Place =
    | Boot
    | Running
    | Check(op: Id) | Backup(op: Id) | BackupSync(op: Id) | Mark(op: Id) | MarkSync(op: Id) | Swap(op: Id) | SwapSync(op: Id)
    | Arm(op: Id) | ArmSync(op: Id)
    | Trial(op: Id)
    | Restore(op: Id) | RestoreSync(op: Id)
    | Finish(op: Id, status: Status, step: nat)

  /**
   * `before` remembers, for the statements only, which executable ran when an operation was staged, and `tested`
   * the operations whose release reported health.
   */
  datatype State = State(binary: Cell<Id>, previous: Cell<Option<Id>>, next: Cell<Option<Id>>,
                         journal: Cell<Option<Journal>>, result: Cell<Option<Outcome>>, health: Cell<Option<Id>>,
                         place: Place, download: Option<Id>, before: map<Id, Id>, tested: set<Id>)
  {
    function SyncBinary(): State {
      this.(binary := binary.Synced(), previous := previous.Synced(), next := next.Synced())
    }

    function SyncJournal(): State {
      this.(journal := journal.Synced(), result := result.Synced(), health := health.Synced())
    }
  }

  // ----- What the files may say -----

  ghost predicate ResultOk(release: Releases, before: map<Id, Id>, tested: set<Id>, r: Outcome, binary: Id) {
    && r.op in before
    && (if r.status == Succeeded then binary == release(r.op) && r.op in tested else binary == before[r.op])
  }

  /** What a journal promises about the other files, whichever of their versions survives. */
  ghost predicate Says(release: Releases, before: map<Id, Id>, tested: set<Id>, j: Option<Journal>,
                       binary: Cell<Id>, previous: Cell<Option<Id>>, result: Cell<Option<Outcome>>) {
    match j
    case None =>
      && (result.kept.Some? ==> ResultOk(release, before, tested, result.kept.value, binary.kept)
                                && ResultOk(release, before, tested, result.kept.value, binary.seen))
      && (result.seen.Some? ==> ResultOk(release, before, tested, result.seen.value, binary.kept)
                                && ResultOk(release, before, tested, result.seen.value, binary.seen))
    case Some(Journal(op, phase)) =>
      && op in before
      && (if phase == Staged then binary.kept == binary.seen == before[op]
          else previous.kept == previous.seen == Some(before[op]))
  }

  /** Every combination of versions that a crash could leave is in order. */
  ghost predicate AlwaysOk(release: Releases, s: State) {
    && Says(release, s.before, s.tested, s.journal.kept, s.binary, s.previous, s.result)
    && Says(release, s.before, s.tested, s.journal.seen, s.binary, s.previous, s.result)
    && (s.health.kept.Some? ==> s.health.kept.value in s.tested)
    && (s.health.seen.Some? ==> s.health.seen.value in s.tested)
  }

  /** The only ways in which the journal on disk may lag behind the journal that is seen. */
  ghost predicate JournalOk(kept: Option<Journal>, seen: Option<Journal>) {
    kept == seen || (kept.Some? && (seen.None? || (seen.value.op == kept.value.op && seen.value.phase != Staged)))
  }

  ghost predicate At(s: State, op: Id, phase: Phase) {
    s.journal == Cell(Some(Journal(op, phase)), Some(Journal(op, phase))) && op in s.before
  }

  /** What each place of the supervisor knows beyond that. */
  ghost predicate PlaceOk(release: Releases, s: State) {
    match s.place
    case Boot => true
    case Running => true
    case Check(op) => At(s, op, Staged)
    case Backup(op) => At(s, op, Staged) && s.next.seen == Some(release(op))
    case BackupSync(op) => At(s, op, Staged) && s.next.seen == Some(release(op)) && s.previous.seen == Some(s.before[op])
    case Mark(op) => At(s, op, Staged) && s.next.seen == Some(release(op)) && s.previous.seen == s.previous.kept == Some(s.before[op])
    case MarkSync(op) =>
      && s.journal.seen == Some(Journal(op, Installing)) && op in s.before && s.next.seen == Some(release(op))
      && s.previous.seen == s.previous.kept == Some(s.before[op])
    case Swap(op) => At(s, op, Installing) && s.next.seen == Some(release(op))
    case SwapSync(op) => At(s, op, Installing) && s.binary.seen == release(op)
    case Arm(op) => At(s, op, Installing) && s.binary == Cell(release(op), release(op))
    case ArmSync(op) => Bound(s.journal.seen, op) && s.journal.seen.value.phase == Testing && op in s.before && s.binary == Cell(release(op), release(op))
    case Trial(op) => At(s, op, Testing) && s.binary == Cell(release(op), release(op))
    case Restore(op) => Bound(s.journal.seen, op)
    case RestoreSync(op) => Bound(s.journal.seen, op) && op in s.before && s.binary.seen == s.before[op]
    case Finish(op, status, step) =>
      && step <= 4 && s.binary.kept == s.binary.seen
      && ResultOk(release, s.before, s.tested, Outcome(op, status), s.binary.seen)
      && (step == 1 ==> Told(s.result.seen, op, status))
      && (2 <= step ==> Told(s.result.seen, op, status) && Told(s.result.kept, op, status))
      && (step <= 2 ==> s.journal.seen.Some? && s.journal.seen.value.op == op)
      && (3 <= step ==> s.journal.seen.None?)
  }

  /** An installation of this operation is in progress. */
  predicate Bound(j: Option<Journal>, op: Id) {
    j.Some? && j.value.op == op && j.value.phase != Staged
  }

  /** The result is stored, or has been reported already. */
  predicate Told(r: Option<Outcome>, op: Id, status: Status) {
    r == None || r == Some(Outcome(op, status))
  }

  ghost predicate Inv(release: Releases, s: State) {
    && AlwaysOk(release, s) && PlaceOk(release, s) && JournalOk(s.journal.kept, s.journal.seen)
    && (s.journal.seen.None? ==> s.binary.kept == s.binary.seen)
  }

  // ----- The supervisor -----

  /** After a start: an interrupted installation is rolled back, a staged one is begun. */
  ghost predicate Loads(s: State, t: State) {
    s.place == Boot && t == s.(place := t.place) && t.place ==
      match s.journal.seen
      case None => Running
      case Some(j) => if j.phase == Staged then Check(j.op) else Restore(j.op)
  }

  ghost predicate Installs(release: Releases, s: State, t: State) {
    match s.place
    case Check(op) => s.next.seen == Some(release(op)) && t == s.(place := Backup(op))
    case Backup(op) => t == s.(previous := s.previous.Put(Some(s.binary.seen)), place := BackupSync(op))
    case BackupSync(op) => t == s.SyncBinary().(place := Mark(op))
    case Mark(op) => t == s.(journal := s.journal.Put(Some(Journal(op, Installing))), place := MarkSync(op))
    case MarkSync(op) => t == s.SyncJournal().(place := Swap(op))
    case Swap(op) => s.next.seen.Some? && t == s.(binary := s.binary.Put(s.next.seen.value), next := s.next.Put(None), place := SwapSync(op))
    case SwapSync(op) => t == s.SyncBinary().(place := Arm(op))
    case Arm(op) => t == s.(journal := s.journal.Put(Some(Journal(op, Testing))), place := ArmSync(op))
    case ArmSync(op) => t == s.SyncJournal().(place := Trial(op))
    case _ => false
  }

  predicate IsInstall(p: Place) {
    p.Check? || p.Backup? || p.BackupSync? || p.Mark? || p.MarkSync? || p.Swap? || p.SwapSync? || p.Arm? || p.ArmSync?
  }

  /** Any step of an installation may fail; what was logged decides between giving up and rolling back. */
  ghost predicate InstallFails(s: State, t: State) {
    && IsInstall(s.place) && s.journal.seen.Some?
    && t == s.(place := if s.journal.seen.value.phase == Staged then Finish(s.place.op, Failed, 0) else Restore(s.place.op))
  }

  ghost predicate TrialEnds(s: State, t: State) {
    && s.place.Trial?
    && ((s.health.seen == Some(s.place.op) && t == s.(place := Finish(s.place.op, Succeeded, 0)))
        || t == s.(place := Restore(s.place.op)))
  }

  ghost predicate Restores(s: State, t: State) {
    || (s.place.Restore? && s.previous.seen.Some?
        && t == s.(binary := s.binary.Put(s.previous.seen.value), place := RestoreSync(s.place.op)))
    || (s.place.RestoreSync? && t == s.SyncBinary().(place := Finish(s.place.op, RolledBack, 0)))
  }

  ghost predicate Finishes(s: State, t: State) {
    s.place.Finish? &&
    var Finish(op, status, step) := s.place;
    || (step == 0 && t == s.(result := s.result.Put(Some(Outcome(op, status))), place := Finish(op, status, 1)))
    || (step == 1 && t == s.SyncJournal().(place := Finish(op, status, 2)))
    || (step == 2 && t == s.(journal := s.journal.Put(None), place := Finish(op, status, 3)))
    || (step == 3 && t == s.(health := s.health.Put(None), place := Finish(op, status, 4)))
    || (step == 4 && t == s.SyncJournal().(place := Running))
  }

  // ----- The worker -----

  /** A new operation is downloaded, verified and staged, if nothing is pending. */
  ghost predicate Stages(release: Releases, s: State, t: State) {
    && s.place == Running && s.journal.seen.None? && s.result.seen.None?
    && ((exists op :: op !in s.before && op !in s.tested
           && t == s.(next := s.next.Put(Some(release(op))), download := Some(op)).SyncBinary())
        || (s.download.Some? && s.download.value !in s.before
            && t == s.(journal := s.journal.Put(Some(Journal(s.download.value, Staged))), download := None,
                       before := s.before[s.download.value := s.binary.seen]).SyncJournal()))
  }

  /** The release under trial reports that it works. */
  ghost predicate ReportsHealth(s: State, t: State) {
    s.place.Trial? && t == s.(health := s.health.Put(Some(s.place.op)), tested := s.tested + {s.place.op}).SyncJournal()
  }

  /** The result is handed to the panel and dropped, without waiting for the disk. */
  ghost predicate ReportsResult(s: State, t: State) {
    && (s.place == Running || (s.place.Finish? && s.place.status == Succeeded && 1 <= s.place.step))
    && t == s.(result := s.result.Put(None))
  }

  /** The worker ends and the supervisor looks at the journal again. */
  ghost predicate Reloads(s: State, t: State) {
    s.place == Running && t == s.(place := Boot, download := None)
  }

  // ----- Interruptions -----

  /** The process stops; the files stay as they are seen. */
  ghost predicate Exits(s: State, t: State) {
    t == s.(place := Boot, download := None)
  }

  ghost predicate Picks<T(!new)>(c: Cell<T>, d: Cell<T>) {
    d.kept == d.seen && (d.seen == c.kept || d.seen == c.seen)
  }

  /** The machine stops; every file that was not synced is left old or new, one by one. */
  ghost predicate Crashes(s: State, t: State) {
    && Picks(s.binary, t.binary) && Picks(s.previous, t.previous) && Picks(s.next, t.next)
    && Picks(s.journal, t.journal) && Picks(s.result, t.result) && Picks(s.health, t.health)
    && t == s.(binary := t.binary, previous := t.previous, next := t.next, journal := t.journal, result := t.result,
               health := t.health, place := Boot, download := None)
  }

  ghost predicate Next(release: Releases, s: State, t: State) {
    || Loads(s, t) || Installs(release, s, t) || InstallFails(s, t) || TrialEnds(s, t) || Restores(s, t) || Finishes(s, t)
    || Stages(release, s, t) || ReportsHealth(s, t) || ReportsResult(s, t) || Reloads(s, t) || Exits(s, t) || Crashes(s, t)
  }

  ghost predicate Init(s: State) {
    && s.binary.kept == s.binary.seen && s.journal == Cell(None, None) && s.result == Cell(None, None) && s.health == Cell(None, None)
    && s.place == Boot && s.download.None? && s.before == map[] && s.tested == {}
  }

  // ----- Every step keeps the invariant -----

  lemma LoadsKeepsInv(release: Releases, s: State, t: State)
    requires Inv(release, s) && Loads(s, t)
    ensures Inv(release, t)
  {
  }

  lemma InstallsKeepsInv(release: Releases, s: State, t: State)
    requires Inv(release, s) && Installs(release, s, t)
    ensures Inv(release, t)
  {
  }

  lemma InstallFailsKeepsInv(release: Releases, s: State, t: State)
    requires Inv(release, s) && InstallFails(s, t)
    ensures Inv(release, t)
  {
  }

  lemma TrialKeepsInv(release: Releases, s: State, t: State)
    requires Inv(release, s) && (TrialEnds(s, t) || ReportsHealth(s, t))
    ensures Inv(release, t)
  {
  }

  lemma RestoresKeepsInv(release: Releases, s: State, t: State)
    requires Inv(release, s) && Restores(s, t)
    ensures Inv(release, t)
  {
  }

  lemma FinishesKeepsInv(release: Releases, s: State, t: State)
    requires Inv(release, s) && Finishes(s, t)
    ensures Inv(release, t)
  {
  }

  lemma StagesKeepsInv(release: Releases, s: State, t: State)
    requires Inv(release, s) && Stages(release, s, t)
    ensures Inv(release, t)
  {
  }

  lemma OthersKeepInv(release: Releases, s: State, t: State)
    requires Inv(release, s) && (ReportsResult(s, t) || Reloads(s, t) || Exits(s, t) || Crashes(s, t))
    ensures Inv(release, t)
  {
  }

  lemma NextKeepsInv(release: Releases, s: State, t: State)
    requires Inv(release, s) && Next(release, s, t)
    ensures Inv(release, t)
  {
    hide *;
    if Loads(s, t) { LoadsKeepsInv(release, s, t); }
    else if Installs(release, s, t) { InstallsKeepsInv(release, s, t); }
    else if InstallFails(s, t) { InstallFailsKeepsInv(release, s, t); }
    else if TrialEnds(s, t) || ReportsHealth(s, t) { TrialKeepsInv(release, s, t); }
    else if Restores(s, t) { RestoresKeepsInv(release, s, t); }
    else if Finishes(s, t) { FinishesKeepsInv(release, s, t); }
    else if Stages(release, s, t) { StagesKeepsInv(release, s, t); }
    else {
      StepsAre(release, s, t);
      OthersKeepInv(release, s, t);
    }
  }

  lemma StepsAre(release: Releases, s: State, t: State)
    requires Next(release, s, t)
    ensures || Loads(s, t) || Installs(release, s, t) || InstallFails(s, t) || TrialEnds(s, t) || Restores(s, t) || Finishes(s, t)
            || Stages(release, s, t) || ReportsHealth(s, t) || ReportsResult(s, t) || Reloads(s, t) || Exits(s, t) || Crashes(s, t)
  {
  }

  // ----- Every run -----

  ghost predicate Run(release: Releases, trace: seq<State>) {
    trace != [] && Init(trace[0]) && forall i :: 0 <= i < |trace| - 1 ==> Next(release, trace[i], trace[i + 1])
  }

  lemma {:induction false} RunKeepsInv(release: Releases, trace: seq<State>)
    requires Run(release, trace)
    ensures Inv(release, trace[|trace| - 1])
    decreases |trace|
  {
    var last := |trace| - 1;
    if last > 0 {
      hide Next, Inv, Init;
      var before := trace[..last];
      forall i | 0 <= i < |before| - 1 ensures Next(release, before[i], before[i + 1]) {
        assert before[i] == trace[i] && before[i + 1] == trace[i + 1];
      }
      RunKeepsInv(release, before);
      NextKeepsInv(release, trace[last - 1], trace[last]);
    }
  }

  /**
   * In every run, with crashes anywhere: once the journal is gone, a stored success means that the binary is the
   * verified release and that it reported health for this operation, and any other result means that the binary is
   * the one that ran when the operation was staged. The same holds for whatever a crash would leave now.
   */
  lemma ResultIsTruthful(release: Releases, trace: seq<State>, t: State)
    requires Run(release, trace)
    requires t == trace[|trace| - 1] || Crashes(trace[|trace| - 1], t)
    requires t.journal.seen.None? && t.result.seen.Some?
    ensures var r := t.result.seen.value;
            && r.op in t.before
            && (if r.status == Succeeded then t.binary.seen == release(r.op) && r.op in t.tested
                else t.binary.seen == t.before[r.op])
  {
    RunKeepsInv(release, trace);
    if Crashes(trace[|trace| - 1], t) {
      OthersKeepInv(release, trace[|trace| - 1], t);
    }
    hide Run;
  }

  /** An interrupted installation can always be undone: the backup is there and holds the right bytes. */
  lemma RollbackIsPossible(release: Releases, trace: seq<State>)
    requires Run(release, trace) && trace[|trace| - 1].place.Restore?
    ensures var s := trace[|trace| - 1];
            s.place.op in s.before && s.previous.seen == Some(s.before[s.place.op])
  {
    RunKeepsInv(release, trace);
    hide Run;
  }

  // ----- Upgrades come to an end -----

  /** The supervisor can get from one state to the other. */
  ghost predicate Reaches(release: Releases, s: State, u: State) {
    exists trace: seq<State> :: trace != [] && trace[0] == s && trace[|trace| - 1] == u
                                && forall i :: 0 <= i < |trace| - 1 ==> Next(release, trace[i], trace[i + 1])
  }

  lemma Arrived(release: Releases, s: State)
    ensures Reaches(release, s, s)
  {
    assert [s][0] == s;
  }

  lemma OneStep(release: Releases, s: State, t: State, u: State)
    requires Next(release, s, t) && Reaches(release, t, u)
    ensures Reaches(release, s, u)
  {
    hide Next;
    var trace: seq<State> :| trace != [] && trace[0] == t && trace[|trace| - 1] == u
                             && forall i :: 0 <= i < |trace| - 1 ==> Next(release, trace[i], trace[i + 1]);
    var longer := [s] + trace;
    forall i | 0 <= i < |longer| - 1 ensures Next(release, longer[i], longer[i + 1]) {
      assert longer[i + 1] == trace[i];
      assert i > 0 ==> longer[i] == trace[i - 1];
    }
    assert longer[0] == s && longer[|longer| - 1] == u;
  }

  /** The operation is over: its result is stored for good, and neither journal nor health report is left. */
  ghost predicate Over(s: State, u: State, op: Id, status: Status) {
    && u.place == Running && u.journal == Cell(None, None) && u.health == Cell(None, None)
    && u.result == Cell(Some(Outcome(op, status)), Some(Outcome(op, status)))
    && u.before == s.before && u.tested == s.tested
  }

  lemma FinishCompletes(release: Releases, s: State, op: Id, status: Status)
    requires s.place == Finish(op, status, 0)
    ensures exists u :: Reaches(release, s, u) && Over(s, u, op, status) && u.binary == s.binary
  {
    var s1 := s.(result := s.result.Put(Some(Outcome(op, status))), place := Finish(op, status, 1));
    var s2 := s1.SyncJournal().(place := Finish(op, status, 2));
    var s3 := s2.(journal := s2.journal.Put(None), place := Finish(op, status, 3));
    var s4 := s3.(health := s3.health.Put(None), place := Finish(op, status, 4));
    var u := s4.SyncJournal().(place := Running);
    assert Finishes(s, s1) && Finishes(s1, s2) && Finishes(s2, s3) && Finishes(s3, s4) && Finishes(s4, u);
    hide Finishes, Reaches;
    Arrived(release, u);
    OneStep(release, s4, u, u);
    OneStep(release, s3, s4, u);
    OneStep(release, s2, s3, u);
    OneStep(release, s1, s2, u);
    OneStep(release, s, s1, u);
  }

  /** A release that reported health is kept, and its success is stored. */
  lemma TrialSucceeds(release: Releases, s: State)
    requires Inv(release, s) && s.place.Trial? && s.health.seen == Some(s.place.op)
    ensures exists u :: Reaches(release, s, u) && Over(s, u, s.place.op, Succeeded) && u.binary == Cell(release(s.place.op), release(s.place.op))
  {
    var t := s.(place := Finish(s.place.op, Succeeded, 0));
    assert Next(release, s, t);
    FinishCompletes(release, t, s.place.op, Succeeded);
    hide Reaches, Next;
    var u :| Reaches(release, t, u) && Over(t, u, s.place.op, Succeeded) && u.binary == t.binary;
    OneStep(release, s, t, u);
  }

  /** A rollback ends with the executable that ran before, and says so. */
  lemma RestoreCompletes(release: Releases, s: State)
    requires Inv(release, s) && s.place.Restore?
    ensures s.place.op in s.before
    ensures exists u :: Reaches(release, s, u) && Over(s, u, s.place.op, RolledBack)
                        && u.binary == Cell(s.before[s.place.op], s.before[s.place.op])
  {
    var op := s.place.op;
    assert op in s.before && s.previous.seen == Some(s.before[op]);
    var t := s.(binary := s.binary.Put(s.previous.seen.value), place := RestoreSync(op));
    var v := t.SyncBinary().(place := Finish(op, RolledBack, 0));
    assert Restores(s, t) && Restores(t, v);
    FinishCompletes(release, v, op, RolledBack);
    hide Reaches, Restores;
    var u :| Reaches(release, v, u) && Over(v, u, op, RolledBack) && u.binary == v.binary;
    OneStep(release, t, v, u);
    OneStep(release, s, t, u);
  }

  /** Once the backup is safe and the journal says so, the release is swapped in and put on trial. */
  lemma SwapReachesTrial(release: Releases, s: State, op: Id, earlier: Id)
    requires s.place == Swap(op) && s.next.seen == Some(release(op)) && s.previous == Cell(Some(earlier), Some(earlier))
    ensures exists u :: && Reaches(release, s, u) && u.place == Trial(op) && u.binary == Cell(release(op), release(op))
                        && u.previous == Cell(Some(earlier), Some(earlier))
  {
    var s1 := s.(binary := s.binary.Put(s.next.seen.value), next := s.next.Put(None), place := SwapSync(op));
    var s2 := s1.SyncBinary().(place := Arm(op));
    var s3 := s2.(journal := s2.journal.Put(Some(Journal(op, Testing))), place := ArmSync(op));
    var u := s3.SyncJournal().(place := Trial(op));
    assert Installs(release, s, s1) && Installs(release, s1, s2) && Installs(release, s2, s3) && Installs(release, s3, u);
    hide Installs, Reaches;
    Arrived(release, u);
    OneStep(release, s3, u, u);
    OneStep(release, s2, s3, u);
    OneStep(release, s1, s2, u);
    OneStep(release, s, s1, u);
  }

  /** A staged release is installed and put on trial, the old executable beside it. */
  lemma InstallReachesTrial(release: Releases, s: State, op: Id)
    requires Inv(release, s) && s.place == Boot && s.journal.seen == Some(Journal(op, Staged)) && s.next.seen == Some(release(op))
    ensures op in s.before
    ensures exists u :: && Reaches(release, s, u) && u.place == Trial(op) && u.binary == Cell(release(op), release(op))
                        && u.previous == Cell(Some(s.before[op]), Some(s.before[op]))
  {
    assert op in s.before && s.binary.seen == s.before[op];
    hide Inv;
    var s0 := s.(place := Check(op));
    var s1 := s0.(place := Backup(op));
    var s2 := s1.(previous := s1.previous.Put(Some(s1.binary.seen)), place := BackupSync(op));
    var s3 := s2.SyncBinary().(place := Mark(op));
    var s4 := s3.(journal := s3.journal.Put(Some(Journal(op, Installing))), place := MarkSync(op));
    var s5 := s4.SyncJournal().(place := Swap(op));
    assert Loads(s, s0) && Installs(release, s0, s1) && Installs(release, s1, s2) && Installs(release, s2, s3);
    assert Installs(release, s3, s4) && Installs(release, s4, s5);
    hide Loads, Installs, Reaches;
    SwapReachesTrial(release, s5, op, s.before[op]);
    var u :| Reaches(release, s5, u) && u.place == Trial(op) && u.binary == Cell(release(op), release(op))
             && u.previous == Cell(Some(s.before[op]), Some(s.before[op]));
    OneStep(release, s4, s5, u);
    OneStep(release, s3, s4, u);
    OneStep(release, s2, s3, u);
    OneStep(release, s1, s2, u);
    OneStep(release, s0, s1, u);
    OneStep(release, s, s0, u);
  }

  /** A release without a health report is never kept: the only way out of its trial is the rollback. */
  lemma UnhealthyIsRolledBack(release: Releases, s: State, t: State)
    requires s.place.Trial? && s.health.seen != Some(s.place.op) && Next(release, s, t)
    ensures t.place == s.place || t.place == Boot || t.place == Restore(s.place.op)
    ensures t.place == Restore(s.place.op) ==> t == s.(place := t.place)
  {
  }
}
