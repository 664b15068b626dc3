/**
 The claim lock of prospector/claim_lock.py as a state machine: any number of workers, one lock
 file, one steal file and one wall clock. Every event is one system call or one clock reading of
 one worker, so a run is an arbitrary interleaving of `claim`, `release`, crashes and time.
 */
module ClaimLockMachine {
  import opened Common

  /** A steal is a handful of system calls; anything older is taken for a worker that died. */
  const STEAL_STALE_S: real := 60.0

  /** What a lock file holds. An empty file and a corrupt one are both unparseable. */
  datatype Content = Unparseable | Record(token: nat, ts: real)

  datatype LockFile = NoLock | Lock(inode: nat, content: Content, mtime: real)

  /** `owner` is the pid in the steal record; `stamp` is absent until the record is written. */
  datatype StealFile = NoSteal | Steal(inode: nat, owner: nat, mtime: real, stamp: Option<real>)

  /**
   Who asked for a file's age: `claim` itself, the steal guard's probe, or the unparseable branch
   inside the guard.
   */
  datatype Asker = Outer | Guard | Inner

  /** Where a worker stands in `claim` or `release`: the system call it makes next. */
  datatype Pc =
    | Idle
    | Creating(stampedAt: real, again: bool)
    | Writing(token: nat, ts: real)
    | AgeRead(who: Asker)
    | AgeStat(who: Asker)
    | AgeClock(who: Asker, dated: real)
    | StealUnlinkOld
    | StealOpening
    | StealWriting(inode: nat)
    | Inspecting
    | JudgeStat(judged: nat)
    | JudgeClock(judged: nat, judgedAt: real)
    | Rereading(judged: nat)
    | Corpse
    | Leaving(clear: bool)
    | Retrying
    | Holding(token: nat, ts: real)
    | Releasing(token: nat, ts: real)

  datatype State = State(
    now: real,
    staleAfter: real,
    lock: LockFile,
    steal: StealFile,
    nextId: nat,
    ws: seq<Pc>)

  /** `ok` is false when the system call raises an OSError other than "exists" or "not found". */
  datatype Event =
    | Tick(dt: real)
    | Call(w: nat)
    | Run(w: nat, ok: bool)
    | Release(w: nat, ok: bool)
    | Crash(w: nat)

  /** The time a lock is dated by: its own stamp when that is positive, else its mtime. */
  function DatedBy(f: LockFile): real
    requires f.Lock?
  {
    if f.content.Record? && f.content.ts > 0.0 then f.content.ts else f.mtime
  }

  function StealDatedBy(f: StealFile): real
    requires f.Steal?
  {
    if f.stamp.Some? && f.stamp.value > 0.0 then f.stamp.value else f.mtime
  }

  /** What the asker does with an age; `None` means the file was not there. */
  function Verdict(who: Asker, age: Option<real>, staleAfter: real): Pc {
    match who
    case Outer => if age.None? || age.value > staleAfter then AgeRead(Guard) else Idle
    case Guard => if age.Some? && age.value > STEAL_STALE_S then StealUnlinkOld else StealOpening
    case Inner => if age.None? || age.value > staleAfter then Corpse else Leaving(false)
  }

  function Present(s: State, who: Asker): bool {
    if who.Guard? then s.steal.Steal? else s.lock.Lock?
  }

  function Mtime(s: State, who: Asker): real
    requires Present(s, who)
  {
    if who.Guard? then s.steal.mtime else s.lock.mtime
  }

  /** The stamp written inside the file, when there is a usable one. */
  function InnerStamp(s: State, who: Asker): Option<real>
    requires Present(s, who)
  {
    if who.Guard? then
      if s.steal.stamp.Some? && s.steal.stamp.value > 0.0 then s.steal.stamp else None
    else
      if s.lock.content.Record? && s.lock.content.ts > 0.0 then Some(s.lock.content.ts) else None
  }

  /** `_age`, one call at a time: read the file, stat it if it carries no stamp, read the clock. */
  function AgeStep(s: State, w: nat, ok: bool): State
    requires w < |s.ws| && (s.ws[w].AgeRead? || s.ws[w].AgeStat? || s.ws[w].AgeClock?)
  {
    var p := s.ws[w];
    var pc :=
      if p.AgeClock? then Verdict(p.who, Some(s.now - p.dated), s.staleAfter)
      else if !Present(s, p.who) then Verdict(p.who, None, s.staleAfter)
      else if !ok then Verdict(p.who, Some(0.0), s.staleAfter)
      else if p.AgeStat? then AgeClock(p.who, Mtime(s, p.who))
      else if InnerStamp(s, p.who).Some? then AgeClock(p.who, InnerStamp(s, p.who).value)
      else AgeStat(p.who);
    s.(ws := s.ws[w := pc])
  }

  /** `_create`: the exclusive open, then the write through the descriptor it returned. */
  function CreateStep(s: State, w: nat, ok: bool): State
    requires w < |s.ws| && (s.ws[w].Creating? || s.ws[w].Writing?)
  {
    match s.ws[w]
    case Creating(ts, again) =>
      if s.lock.Lock? || !ok then
        s.(ws := s.ws[w := if again then Idle else AgeRead(Outer)])
      else
        s.(lock := Lock(s.nextId, Unparseable, s.now), nextId := s.nextId + 1,
           ws := s.ws[w := Writing(s.nextId, ts)])
    case Writing(t, ts) =>
      if !ok then s.(ws := s.ws[w := Idle])
      else
        s.(lock := if s.lock.Lock? && s.lock.inode == t then Lock(t, Record(t, ts), s.now) else s.lock,
           ws := s.ws[w := Holding(t, ts)])
  }

  /** Taking and leaving the steal guard. */
  function GuardStep(s: State, w: nat, ok: bool): State
    requires w < |s.ws|
    requires s.ws[w].StealUnlinkOld? || s.ws[w].StealOpening? || s.ws[w].StealWriting? || s.ws[w].Leaving?
  {
    match s.ws[w]
    case StealUnlinkOld => s.(steal := if ok then NoSteal else s.steal, ws := s.ws[w := StealOpening])
    case StealOpening =>
      if s.steal.Steal? || !ok then s.(ws := s.ws[w := Idle])
      else s.(steal := Steal(s.nextId, w, s.now, None), nextId := s.nextId + 1,
              ws := s.ws[w := StealWriting(s.nextId)])
    case StealWriting(i) =>
      if !ok then s.(ws := s.ws[w := Idle])
      else s.(steal := if s.steal.Steal? && s.steal.inode == i then s.steal.(stamp := Some(s.now)) else s.steal,
              ws := s.ws[w := Inspecting])
    case Leaving(clear) =>
      s.(steal := if ok then NoSteal else s.steal, ws := s.ws[w := if clear then Retrying else Idle])
  }

  /** The judgement inside the guard: read, judge stale, re-read, compare tokens, unlink. */
  function JudgeStep(s: State, w: nat, ok: bool): State
    requires w < |s.ws|
    requires s.ws[w].Inspecting? || s.ws[w].JudgeStat? || s.ws[w].JudgeClock? || s.ws[w].Rereading?
  {
    var pc :=
      match s.ws[w]
      case Inspecting =>
        if s.lock.NoLock? then Leaving(true)
        else if !ok then Leaving(false)
        else if s.lock.content.Unparseable? then AgeRead(Inner)
        else if s.lock.content.ts > 0.0 then JudgeClock(s.lock.content.token, s.lock.content.ts)
        else JudgeStat(s.lock.content.token)
      case JudgeStat(t) =>
        if s.lock.NoLock? || !ok then Rereading(t) else JudgeClock(t, s.lock.mtime)
      case JudgeClock(t, at) =>
        if s.now - at > s.staleAfter then Rereading(t) else Leaving(false)
      case Rereading(t) =>
        if s.lock.NoLock? then Leaving(true)
        else if ok && s.lock.content.Record? && s.lock.content.token == t then Corpse
        else Leaving(false);
    s.(ws := s.ws[w := pc])
  }

  function UnlinkStep(s: State, w: nat, ok: bool): State
    requires w < |s.ws| && (s.ws[w].Corpse? || s.ws[w].Releasing?)
  {
    var after := if s.ws[w].Releasing? then Idle else Leaving(ok || s.lock.NoLock?);
    s.(lock := if ok then NoLock else s.lock, ws := s.ws[w := after])
  }

  /** The next action of worker `w`, whatever it is. */
  function RunStep(s: State, w: nat, ok: bool): State
    requires w < |s.ws|
  {
    match s.ws[w]
    case Idle => s
    case Holding(_, _) => s
    case Retrying => s.(ws := s.ws[w := Creating(s.now, true)])
    case Creating(_, _) => CreateStep(s, w, ok)
    case Writing(_, _) => CreateStep(s, w, ok)
    case AgeRead(_) => AgeStep(s, w, ok)
    case AgeStat(_) => AgeStep(s, w, ok)
    case AgeClock(_, _) => AgeStep(s, w, ok)
    case StealUnlinkOld => GuardStep(s, w, ok)
    case StealOpening => GuardStep(s, w, ok)
    case StealWriting(_) => GuardStep(s, w, ok)
    case Leaving(_) => GuardStep(s, w, ok)
    case Corpse => UnlinkStep(s, w, ok)
    case Releasing(_, _) => UnlinkStep(s, w, ok)
    case Inspecting => JudgeStep(s, w, ok)
    case JudgeStat(_) => JudgeStep(s, w, ok)
    case JudgeClock(_, _) => JudgeStep(s, w, ok)
    case Rereading(_) => JudgeStep(s, w, ok)
  }

  /** `release`: with a remembered token it verifies the record first; without one it unlinks outright. */
  function ReleaseStep(s: State, w: nat, ok: bool): State
    requires w < |s.ws|
  {
    match s.ws[w]
    case Holding(t, ts) =>
      if s.lock.Lock? && ok && s.lock.content.Record? && s.lock.content.token == t
      then s.(ws := s.ws[w := Releasing(t, ts)])
      else s.(ws := s.ws[w := Idle])
    case Idle => if ok then s.(lock := NoLock) else s
    case _ => s
  }

  function Next(s: State, ev: Event): State {
    match ev
    case Tick(dt) => s.(now := s.now + dt)
    case Call(w) => if w < |s.ws| && s.ws[w].Idle? then s.(ws := s.ws[w := Creating(s.now, false)]) else s
    case Run(w, ok) => if w < |s.ws| then RunStep(s, w, ok) else s
    case Release(w, ok) => if w < |s.ws| then ReleaseStep(s, w, ok) else s
    case Crash(w) => if w < |s.ws| then s.(ws := s.ws[w := Idle]) else s
  }

  function RunAll(s: State, evs: seq<Event>): State { RunFrom(Next, s, evs) }

  // ---- the hypotheses ------------------------------------------------------------------

  /** A worker inside the critical section the steal file guards. */
  predicate InGuard(p: Pc) {
    || p.StealWriting? || p.Inspecting? || p.JudgeStat? || p.JudgeClock? || p.Rereading?
    || p.Corpse? || p.Leaving?
    || ((p.AgeRead? || p.AgeStat? || p.AgeClock?) && p.who.Inner?)
  }

  predicate HasClaim(p: Pc) { p.Holding? || p.Releasing? }

  /** Worker `i` holds a claim that has not expired. */
  predicate Live(s: State, i: nat) {
    i < |s.ws| && HasClaim(s.ws[i]) && s.now - s.ws[i].ts <= s.staleAfter
  }

  /** Creating a lock file and writing its record is one step. */
  predicate AtomicCreate(s: State, ev: Event) {
    forall j :: 0 <= j < |s.ws| && s.ws[j].Writing? ==> ev == Run(j, true)
  }

  /** A worker whose claim has expired takes no further step on it. */
  predicate NoLateStep(s: State, ev: Event) {
    match ev
    case Run(w, _) => w < |s.ws| && HasClaim(s.ws[w]) ==> Live(s, w)
    case Release(w, _) => w < |s.ws| && HasClaim(s.ws[w]) ==> Live(s, w)
    case _ => true
  }

  /** No worker dies between creating and unlinking the steal file, and neither of those calls fails half way. */
  predicate GuardSurvives(s: State, ev: Event) {
    match ev
    case Crash(w) => w < |s.ws| ==> !InGuard(s.ws[w])
    case Run(w, ok) => w < |s.ws| && (s.ws[w].StealWriting? || s.ws[w].Leaving?) ==> ok
    case _ => true
  }

  /** No worker spends more than 60 s between creating and unlinking the steal file. */
  predicate GuardIsQuick(s: State, ev: Event) {
    match ev
    case Tick(dt) =>
      forall j :: 0 <= j < |s.ws| && InGuard(s.ws[j]) && s.steal.Steal? ==> s.now + dt - s.steal.mtime <= STEAL_STALE_S
    case _ => true
  }

  /** No worker pauses between reading a steal file's stamp and the clock for so long that the stamp turns 60 s old. */
  predicate ProbeIsQuick(s: State, ev: Event) {
    match ev
    case Tick(dt) =>
      forall j :: 0 <= j < |s.ws| && s.ws[j].AgeClock? && s.ws[j].who.Guard? ==>
          s.now + dt - s.ws[j].dated <= STEAL_STALE_S
    case _ => true
  }

  predicate MonotoneClock(s: State, ev: Event) { ev.Tick? ==> ev.dt >= 0.0 }

  /** `release` is called only after a `claim` that returned True. */
  predicate ReleaseAfterClaim(s: State, ev: Event) {
    ev.Release? && ev.w < |s.ws| ==> !s.ws[ev.w].Idle?
  }

  /** The hypotheses, by name, so that a run can be said to break exactly one of them. */
  datatype Rule = Atomic | Expired | Survive | Quick | Probe | Clock | Paired

  predicate Obeys(r: Rule, s: State, ev: Event) {
    match r
    case Atomic => AtomicCreate(s, ev)
    case Expired => NoLateStep(s, ev)
    case Survive => GuardSurvives(s, ev)
    case Quick => GuardIsQuick(s, ev)
    case Probe => ProbeIsQuick(s, ev)
    case Clock => MonotoneClock(s, ev)
    case Paired => ReleaseAfterClaim(s, ev)
  }

  ghost predicate Disciplined(s: State, ev: Event) {
    forall r: Rule :: Obeys(r, s, ev)
  }

  ghost predicate DisciplinedRun(s: State, evs: seq<Event>)
    decreases evs
  {
    evs == [] || (Disciplined(s, evs[0]) && DisciplinedRun(Next(s, evs[0]), evs[1..]))
  }

  /** Every worker idle, no steal file, and any lock file at all: absent, valid, expired or corrupt. */
  predicate Init(s: State) {
    && s.now > 0.0 && s.staleAfter > 0.0
    && s.steal.NoSteal?
    && (s.lock.Lock? ==> s.lock.inode < s.nextId && (s.lock.content.Record? ==> s.lock.content.token < s.nextId))
    && forall i :: 0 <= i < |s.ws| ==> s.ws[i].Idle?
  }

  // ---- the guarantee -------------------------------------------------------------------

  predicate MutualExclusion(s: State) {
    forall i, j :: 0 <= i < |s.ws| && 0 <= j < |s.ws| && Live(s, i) && Live(s, j) ==> i == j
  }

  /** Every unexpired holder's own record is the one in the lock file. */
  predicate HolderOnDisk(s: State) {
    forall i :: 0 <= i < |s.ws| && Live(s, i) ==> s.lock.Lock? && s.lock.content == Record(s.ws[i].token, s.ws[i].ts)
  }

  // ---- the inductive invariant ---------------------------------------------------------

  /** Nobody can be holding it: no record, a record without a usable stamp, or an expired one. */
  predicate Dead(s: State) {
    s.lock.Lock? && (s.lock.content.Record? && s.lock.content.ts > 0.0 ==> s.now - s.lock.content.ts > s.staleAfter)
  }

  predicate LockCarries(s: State, t: nat) {
    s.lock.Lock? && s.lock.content.Record? && s.lock.content.token == t
  }

  /** What one worker's program counter says about the two files. */
  predicate WorkerOk(s: State, p: Pc) {
    match p
    case Creating(ts, _) => ts > 0.0
    case Writing(t, ts) => ts > 0.0 && t < s.nextId && s.lock.Lock? && s.lock.inode == t && s.lock.content.Unparseable?
    case AgeRead(who) => who.Inner? ==> s.lock.Lock? && s.lock.content.Unparseable?
    case AgeStat(who) => who.Inner? ==> s.lock.Lock? && s.lock.content.Unparseable?
    case AgeClock(who, at) =>
      && (who.Inner? ==> s.lock.Lock? && s.lock.content.Unparseable?)
      && (who.Guard? ==> s.now - at <= STEAL_STALE_S)
    case StealUnlinkOld => false
    case JudgeStat(t) => t < s.nextId && (LockCarries(s, t) ==> s.lock.content.ts <= 0.0)
    case JudgeClock(t, at) => t < s.nextId && (LockCarries(s, t) && s.lock.content.ts > 0.0 ==> s.lock.content.ts == at)
    case Rereading(t) => t < s.nextId && (LockCarries(s, t) ==> Dead(s))
    case Corpse => Dead(s)
    case Holding(t, ts) => ts > 0.0 && t < s.nextId &&
        (s.now - ts <= s.staleAfter ==> s.lock.Lock? && s.lock.inode == t && s.lock.content == Record(t, ts))
    case Releasing(t, ts) => ts > 0.0 && t < s.nextId &&
        (s.now - ts <= s.staleAfter ==> s.lock.Lock? && s.lock.inode == t && s.lock.content == Record(t, ts))
    case _ => true
  }

  predicate OwnsToken(p: Pc) { p.Writing? || p.Holding? || p.Releasing? }

  predicate Judges(p: Pc) { p.JudgeStat? || p.JudgeClock? || p.Rereading? }

  /** Has already decided on the file that is there now. */
  predicate Doomed(p: Pc) {
    p.Corpse? || ((p.AgeRead? || p.AgeStat? || p.AgeClock?) && p.who.Inner?)
  }

  predicate PairOk(p: Pc, q: Pc) {
    && (OwnsToken(p) && OwnsToken(q) ==> p.token != q.token)
    && (p.Writing? ==> !Doomed(q) && (Judges(q) ==> q.judged != p.token))
  }

  /** The steal file is there exactly while its owner is in the guard, and is at most 60 s old. */
  predicate StealOk(s: State) {
    && (s.steal.Steal? ==>
          && s.steal.owner < |s.ws| && InGuard(s.ws[s.steal.owner])
          && s.steal.mtime <= s.now && s.now - s.steal.mtime <= STEAL_STALE_S
          && s.steal.mtime <= StealDatedBy(s.steal))
    && (forall i :: 0 <= i < |s.ws| && InGuard(s.ws[i]) ==> s.steal.Steal? && s.steal.owner == i)
  }

  predicate FilesOk(s: State) {
    && s.now > 0.0 && s.staleAfter > 0.0
    && (s.lock.Lock? ==> s.lock.inode < s.nextId && (s.lock.content.Record? ==> s.lock.content.token < s.nextId))
  }

  predicate Inv(s: State) {
    && FilesOk(s) && StealOk(s)
    && (forall i :: 0 <= i < |s.ws| ==> WorkerOk(s, s.ws[i]))
    && (forall i, j :: 0 <= i < |s.ws| && 0 <= j < |s.ws| && i != j ==> PairOk(s.ws[i], s.ws[j]))
  }

  lemma InitInv(s: State)
    requires Init(s)
    ensures Inv(s)
  {
  }

  lemma TickKeepsInv(s: State, dt: real)
    requires Inv(s) && Disciplined(s, Tick(dt))
    ensures Inv(Next(s, Tick(dt)))
  {
    var ev := Tick(dt);
    assert Obeys(Clock, s, ev) && Obeys(Quick, s, ev) && Obeys(Probe, s, ev) && Obeys(Atomic, s, ev);
    var s' := Next(s, ev);
    forall i | 0 <= i < |s'.ws| ensures WorkerOk(s', s'.ws[i]) {
      assert WorkerOk(s, s.ws[i]);
    }
  }

  /** The worker's own pc may change only to one that is sound next to the others; the files stay. */
  lemma PcKeepsInv(s: State, w: nat, p: Pc)
    requires Inv(s) && w < |s.ws|
    requires WorkerOk(s, p) && !p.Writing?
    requires InGuard(p) <==> InGuard(s.ws[w])
    requires OwnsToken(p) ==> OwnsToken(s.ws[w]) && p.token == s.ws[w].token
    requires forall j :: 0 <= j < |s.ws| && j != w && s.ws[j].Writing? ==> PairOk(s.ws[j], p)
    ensures Inv(s.(ws := s.ws[w := p]))
  {
    var s' := s.(ws := s.ws[w := p]);
    forall i, j | 0 <= i < |s'.ws| && 0 <= j < |s'.ws| && i != j ensures PairOk(s'.ws[i], s'.ws[j]) {
      assert PairOk(s.ws[i], s.ws[j]);
    }
    forall i | 0 <= i < |s'.ws| ensures WorkerOk(s', s'.ws[i]) {
      assert i != w ==> WorkerOk(s, s.ws[i]);
    }
  }

  lemma AgeKeepsInv(s: State, w: nat, ok: bool)
    requires Inv(s) && Disciplined(s, Run(w, ok)) && w < |s.ws|
    requires s.ws[w].AgeRead? || s.ws[w].AgeStat? || s.ws[w].AgeClock?
    ensures Inv(AgeStep(s, w, ok))
  {
    assert Obeys(Atomic, s, Run(w, ok)) && WorkerOk(s, s.ws[w]);
    PcKeepsInv(s, w, AgeStep(s, w, ok).ws[w]);
  }

  lemma JudgeKeepsInv(s: State, w: nat, ok: bool)
    requires Inv(s) && Disciplined(s, Run(w, ok)) && w < |s.ws|
    requires s.ws[w].Inspecting? || Judges(s.ws[w])
    ensures Inv(JudgeStep(s, w, ok))
  {
    assert Obeys(Atomic, s, Run(w, ok)) && WorkerOk(s, s.ws[w]);
    PcKeepsInv(s, w, JudgeStep(s, w, ok).ws[w]);
  }

  lemma OpenKeepsInv(s: State, w: nat, ts: real, again: bool)
    requires Inv(s) && Disciplined(s, Run(w, true)) && w < |s.ws|
    requires s.ws[w] == Creating(ts, again) && s.lock.NoLock?
    ensures Inv(CreateStep(s, w, true))
  {
    assert Obeys(Atomic, s, Run(w, true)) && WorkerOk(s, s.ws[w]);
    var s' := CreateStep(s, w, true);
    forall i | 0 <= i < |s'.ws| ensures WorkerOk(s', s'.ws[i]) {
      assert WorkerOk(s, s.ws[i]);
    }
    forall i, j | 0 <= i < |s'.ws| && 0 <= j < |s'.ws| && i != j ensures PairOk(s'.ws[i], s'.ws[j]) {
      assert PairOk(s.ws[i], s.ws[j]) && WorkerOk(s, s.ws[i]) && WorkerOk(s, s.ws[j]);
    }
  }

  lemma WriteKeepsInv(s: State, w: nat)
    requires Inv(s) && Disciplined(s, Run(w, true)) && w < |s.ws| && s.ws[w].Writing?
    ensures Inv(CreateStep(s, w, true))
  {
    assert Obeys(Atomic, s, Run(w, true)) && WorkerOk(s, s.ws[w]);
    var s' := CreateStep(s, w, true);
    forall i | 0 <= i < |s'.ws| ensures WorkerOk(s', s'.ws[i]) {
      assert WorkerOk(s, s.ws[i]) && (i != w ==> PairOk(s.ws[w], s.ws[i]));
    }
    forall i, j | 0 <= i < |s'.ws| && 0 <= j < |s'.ws| && i != j ensures PairOk(s'.ws[i], s'.ws[j]) {
      assert PairOk(s.ws[i], s.ws[j]);
    }
  }

  lemma CreateKeepsInv(s: State, w: nat, ok: bool)
    requires Inv(s) && Disciplined(s, Run(w, ok)) && w < |s.ws|
    requires s.ws[w].Creating? || s.ws[w].Writing?
    ensures Inv(CreateStep(s, w, ok))
  {
    assert Obeys(Atomic, s, Run(w, ok)) && WorkerOk(s, s.ws[w]);
    match s.ws[w]
    case Creating(ts, again) =>
      if s.lock.NoLock? && ok { OpenKeepsInv(s, w, ts, again); }
      else { PcKeepsInv(s, w, CreateStep(s, w, ok).ws[w]); }
    case Writing(_, _) => WriteKeepsInv(s, w);
  }

  /** The files of the lock side are untouched, so only the guard's own clauses are at stake. */
  lemma StealSideKeepsInv(s: State, s': State, w: nat)
    requires Inv(s) && w < |s.ws| && |s'.ws| == |s.ws|
    requires s' == s.(steal := s'.steal, nextId := s'.nextId, ws := s.ws[w := s'.ws[w]]) && s.nextId <= s'.nextId
    requires StealOk(s') && WorkerOk(s', s'.ws[w])
    requires !OwnsToken(s'.ws[w]) && !Doomed(s'.ws[w]) && !Judges(s'.ws[w])
    ensures Inv(s')
  {
    forall i | 0 <= i < |s'.ws| ensures WorkerOk(s', s'.ws[i]) {
      assert i != w ==> WorkerOk(s, s.ws[i]);
    }
    forall i, j | 0 <= i < |s'.ws| && 0 <= j < |s'.ws| && i != j ensures PairOk(s'.ws[i], s'.ws[j]) {
      assert PairOk(s.ws[i], s.ws[j]);
    }
  }

  lemma GuardKeepsInv(s: State, w: nat, ok: bool)
    requires Inv(s) && Disciplined(s, Run(w, ok)) && w < |s.ws|
    requires s.ws[w].StealUnlinkOld? || s.ws[w].StealOpening? || s.ws[w].StealWriting? || s.ws[w].Leaving?
    ensures Inv(GuardStep(s, w, ok))
  {
    assert Obeys(Survive, s, Run(w, ok)) && WorkerOk(s, s.ws[w]);
    StealSideKeepsInv(s, GuardStep(s, w, ok), w);
  }

  /** What the unlink of a corpse or of an own record means for another worker. */
  lemma UnlinkSparesOthers(s: State, w: nat, ok: bool, i: nat)
    requires Inv(s) && w < |s.ws| && i < |s.ws| && i != w && !s.ws[i].Writing?
    requires s.ws[w].Corpse? || (s.ws[w].Releasing? && Live(s, w))
    ensures WorkerOk(UnlinkStep(s, w, ok), s.ws[i])
    ensures Live(s, i) ==> UnlinkStep(s, w, ok).lock == s.lock
  {
    assert WorkerOk(s, s.ws[w]) && WorkerOk(s, s.ws[i]) && PairOk(s.ws[i], s.ws[w]);
    InvIsExclusive(s);
  }

  /** Neither the thief nor a releasing holder can unlink a record that somebody else still holds. */
  lemma UnlinkKeepsInv(s: State, w: nat, ok: bool)
    requires Inv(s) && Disciplined(s, Run(w, ok)) && w < |s.ws|
    requires s.ws[w].Corpse? || s.ws[w].Releasing?
    ensures Inv(UnlinkStep(s, w, ok))
    ensures forall i :: 0 <= i < |s.ws| && i != w && Live(s, i) ==> UnlinkStep(s, w, ok).lock == s.lock
  {
    assert Obeys(Atomic, s, Run(w, ok)) && Obeys(Expired, s, Run(w, ok));
    var s' := UnlinkStep(s, w, ok);
    forall i | 0 <= i < |s.ws| && i != w
      ensures WorkerOk(s', s'.ws[i]) && (Live(s, i) ==> s'.lock == s.lock)
    {
      UnlinkSparesOthers(s, w, ok, i);
    }
    forall i, j | 0 <= i < |s'.ws| && 0 <= j < |s'.ws| && i != j ensures PairOk(s'.ws[i], s'.ws[j]) {
      assert PairOk(s.ws[i], s.ws[j]);
    }
  }

  lemma ReleaseKeepsInv(s: State, w: nat, ok: bool)
    requires Inv(s) && Disciplined(s, Release(w, ok)) && w < |s.ws|
    ensures Inv(ReleaseStep(s, w, ok))
  {
    var ev := Release(w, ok);
    assert Obeys(Atomic, s, ev) && Obeys(Paired, s, ev) && WorkerOk(s, s.ws[w]);
    if s.ws[w].Holding? { PcKeepsInv(s, w, ReleaseStep(s, w, ok).ws[w]); }
  }

  lemma StepKeepsInv(s: State, ev: Event)
    requires Inv(s) && Disciplined(s, ev)
    ensures Inv(Next(s, ev))
  {
    assert Obeys(Atomic, s, ev) && Obeys(Survive, s, ev);
    match ev
    case Tick(dt) => TickKeepsInv(s, dt);
    case Call(w) => if w < |s.ws| && s.ws[w].Idle? { PcKeepsInv(s, w, Creating(s.now, false)); }
    case Crash(w) => if w < |s.ws| { PcKeepsInv(s, w, Idle); }
    case Release(w, ok) => if w < |s.ws| { ReleaseKeepsInv(s, w, ok); }
    case Run(w, ok) => if w < |s.ws| { RunKeepsInv(s, w, ok); }
  }

  lemma RunKeepsInv(s: State, w: nat, ok: bool)
    requires Inv(s) && Disciplined(s, Run(w, ok)) && w < |s.ws|
    ensures Inv(RunStep(s, w, ok))
  {
    assert Obeys(Atomic, s, Run(w, ok));
    match s.ws[w]
    case Idle =>
    case Holding(_, _) =>
    case Retrying => PcKeepsInv(s, w, Creating(s.now, true));
    case Creating(_, _) => CreateKeepsInv(s, w, ok);
    case Writing(_, _) => CreateKeepsInv(s, w, ok);
    case AgeRead(_) => AgeKeepsInv(s, w, ok);
    case AgeStat(_) => AgeKeepsInv(s, w, ok);
    case AgeClock(_, _) => AgeKeepsInv(s, w, ok);
    case StealUnlinkOld => GuardKeepsInv(s, w, ok);
    case StealOpening => GuardKeepsInv(s, w, ok);
    case StealWriting(_) => GuardKeepsInv(s, w, ok);
    case Leaving(_) => GuardKeepsInv(s, w, ok);
    case Corpse => UnlinkKeepsInv(s, w, ok);
    case Releasing(_, _) => UnlinkKeepsInv(s, w, ok);
    case Inspecting => JudgeKeepsInv(s, w, ok);
    case JudgeStat(_) => JudgeKeepsInv(s, w, ok);
    case JudgeClock(_, _) => JudgeKeepsInv(s, w, ok);
    case Rereading(_) => JudgeKeepsInv(s, w, ok);
  }

  lemma {:induction false} RunKeeps(s: State, evs: seq<Event>)
    requires Inv(s) && DisciplinedRun(s, evs)
    ensures Inv(RunAll(s, evs))
    decreases evs
  {
    if evs != [] {
      StepKeepsInv(s, evs[0]);
      RunKeeps(Next(s, evs[0]), evs[1..]);
    }
  }

  /**
   Main result: in every disciplined interleaving at most one worker holds an unexpired claim, and
   its record is the one on disk.
   */
  lemma ClaimIsExclusive(s: State, evs: seq<Event>)
    requires Init(s) && DisciplinedRun(s, evs)
    ensures MutualExclusion(RunAll(s, evs)) && HolderOnDisk(RunAll(s, evs))
  {
    InitInv(s);
    RunKeeps(s, evs);
    InvIsExclusive(RunAll(s, evs));
  }

  lemma InvIsExclusive(s: State)
    requires Inv(s)
    ensures MutualExclusion(s) && HolderOnDisk(s)
  {
    forall i, j | 0 <= i < |s.ws| && 0 <= j < |s.ws| && Live(s, i) && Live(s, j) ensures i == j {
      assert WorkerOk(s, s.ws[i]) && WorkerOk(s, s.ws[j]);
      assert i != j ==> PairOk(s.ws[i], s.ws[j]);
    }
    forall i | 0 <= i < |s.ws| && Live(s, i)
      ensures s.lock.Lock? && s.lock.content == Record(s.ws[i].token, s.ws[i].ts)
    {
      assert WorkerOk(s, s.ws[i]);
    }
  }

  predicate Acts(ev: Event, w: nat) {
    match ev
    case Tick(_) => false
    case Call(v) => v == w
    case Run(v, _) => v == w
    case Release(v, _) => v == w
    case Crash(v) => v == w
  }

  /** While a lock file is half written nobody holds an unexpired claim. */
  lemma HalfWrittenMeansFree(s: State, w: nat, holder: nat)
    requires Inv(s) && w < |s.ws| && s.ws[w].Writing?
    ensures !Live(s, holder)
  {
    assert WorkerOk(s, s.ws[w]);
    assert holder < |s.ws| ==> WorkerOk(s, s.ws[holder]);
  }

  /** No step of anybody else touches the lock file of an unexpired holder: it is neither unlinked nor rewritten. */
  lemma NobodyUnlinksALiveLock(s: State, evs: seq<Event>, ev: Event, holder: nat)
    requires Init(s) && DisciplinedRun(s, evs)
    requires Disciplined(RunAll(s, evs), ev) && Live(RunAll(s, evs), holder) && !Acts(ev, holder)
    ensures Next(RunAll(s, evs), ev).lock == RunAll(s, evs).lock
  {
    InitInv(s);
    RunKeeps(s, evs);
    var m := RunAll(s, evs);
    assert Obeys(Paired, m, ev) && Obeys(Expired, m, ev) && WorkerOk(m, m.ws[holder]);
    match ev
    case Run(w, ok) =>
      if w < |m.ws| && (m.ws[w].Corpse? || m.ws[w].Releasing?) { UnlinkSparesOthers(m, w, ok, holder); }
      if w < |m.ws| && m.ws[w].Writing? { HalfWrittenMeansFree(m, w, holder); }
    case _ =>
  }
}
