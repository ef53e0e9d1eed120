/**
 Revoking the sessions of one user: the generation in the database, the task that each bump writes, the fence and the
 sessions in Redis, and the workers, interleaved with logins.
 */
module AuthFence {
  import opened Basics

  const ATTEMPTS: nat := 3

  datatype Session = Session(generation: nat, createdAt: int)

  /** A committed bump left the generation at generation + 1; its row was created at createdAt. */
  datatype Task = Task(generation: nat, createdAt: int) {
    /** What revoking for this task deletes. */
    predicate Covers(x: Session) {
      x.generation <= generation && x.createdAt <= createdAt
    }
  }

  /** fence is 0 while the key is missing. index is the sorted set of the user's session ids. */
  datatype Redis = Redis(fence: nat, sessions: map<nat, Session>, index: set<nat>) {

    /** CREATE_SESSION_LUA: the fence check, the session and its index entry are one step. */
    function Create(sid: nat, x: Session): Redis {
      if x.generation < fence || sid in index then this
      else this.(sessions := sessions[sid := x], index := index + {sid})
    }

    /** UPDATE_MIN_GEN_LUA never lowers the fence. */
    function Raise(target: nat): Redis {
      if target > fence then this.(fence := target) else this
    }

    function Delete(sid: nat, indexed: bool): Redis {
      this.(sessions := sessions - {sid}, index := if indexed then index else index - {sid})
    }
  }

  datatype Phase =
    | Fencing
    | Listing
    | Deleting(todo: set<nat>, failed: bool)
    | Publishing
    | Removing

  datatype Worker = Worker(id: nat, task: Task, left: nat, phase: Phase)

  /** bumps and published are for the proofs: every bump committed, and those whose revocation was published. */
  datatype Db = Db(generation: nat, tasks: map<nat, Task>, bumps: map<nat, Task>, published: set<nat>)

  /** pending holds the logins that have read the user and not created their session yet. */
  datatype State = State(db: Db, redis: Redis, pending: map<nat, nat>, workers: map<nat, Worker>)

  datatype Step =
    | ReadUser(login: nat)
    | CreateSession(login: nat, sid: nat, createdAt: int, reply: Reply)
    | RevokeSession(sid: nat, indexed: bool)
    | Bump(id: nat, worker: nat, createdAt: int, expected: Option<nat>)
    | SetFence(worker: nat, reply: Reply)
    | ListSessions(worker: nat, ok: bool)
    | DeleteOne(worker: nat, sid: nat, reply: Reply)
    | EndPass(worker: nat)
    | PublishRevocation(worker: nat, reply: Reply)
    | RemoveRow(worker: nat, reply: Reply)
    | CronPicks(worker: nat, id: nat)
    | Crash(worker: nat)

  function At(s: State, w: nat, phase: Phase): State
    requires w in s.workers
  {
    s.(workers := s.workers[w := s.workers[w].(phase := phase)])
  }

  function Gone(s: State, w: nat): State {
    s.(workers := s.workers - {w})
  }

  /** A failed attempt starts over, or gives up and leaves the row for the cron. */
  function Fails(s: State, w: nat): State
    requires w in s.workers
  {
    if s.workers[w].left > 1 then
      s.(workers := s.workers[w := s.workers[w].(left := s.workers[w].left - 1, phase := Fencing)])
    else Gone(s, w)
  }

  /** logoutAll and resetPassword increment unconditionally, changePassword only the generation it has read. */
  function DoBump(s: State, id: nat, w: nat, createdAt: int, expected: Option<nat>): State {
    if id in s.db.bumps || w in s.workers || (expected.Some? && expected.value != s.db.generation) then s
    else
      var task := Task(s.db.generation, createdAt);
      s.(db := s.db.(generation := s.db.generation + 1, tasks := s.db.tasks[id := task], bumps := s.db.bumps[id := task]),
         workers := s.workers[w := Worker(id, task, ATTEMPTS, Fencing)])
  }

  function DoCreateSession(s: State, login: nat, sid: nat, createdAt: int, reply: Reply): State {
    if login !in s.pending then s
    else
      var t := s.(pending := s.pending - {login});
      if reply == Refused then t else t.(redis := s.redis.Create(sid, Session(s.pending[login], createdAt)))
  }

  function DoSetFence(s: State, w: nat, reply: Reply): State {
    if w !in s.workers || s.workers[w].phase != Fencing then s
    else
      var t := if reply == Refused then s else s.(redis := s.redis.Raise(s.workers[w].task.generation + 1));
      if reply == Acked then At(t, w, Listing) else Fails(t, w)
  }

  function DoListSessions(s: State, w: nat, ok: bool): State {
    if w !in s.workers || s.workers[w].phase != Listing then s
    else if ok then At(s, w, Deleting(s.redis.index, false))
    else Fails(s, w)
  }

  function DoDeleteOne(s: State, w: nat, sid: nat, reply: Reply): State {
    if w !in s.workers || !s.workers[w].phase.Deleting? || sid !in s.workers[w].phase.todo then s
    else
      var x := s.workers[w];
      var spared := sid in s.redis.sessions && !x.task.Covers(s.redis.sessions[sid]);
      var t := if spared || reply == Refused then s else s.(redis := s.redis.Delete(sid, reply == AckLost));
      At(t, w, Deleting(x.phase.todo - {sid}, x.phase.failed || (!spared && reply != Acked)))
  }

  function DoEndPass(s: State, w: nat): State {
    if w !in s.workers || !s.workers[w].phase.Deleting? || s.workers[w].phase.todo != {} then s
    else if s.workers[w].phase.failed then Fails(s, w)
    else At(s, w, Publishing)
  }

  function DoPublish(s: State, w: nat, reply: Reply): State {
    if w !in s.workers || s.workers[w].phase != Publishing then s
    else
      var t := if reply == Refused then s else s.(db := s.db.(published := s.db.published + {s.workers[w].id}));
      if reply == Acked then At(t, w, Removing) else Fails(t, w)
  }

  /** A row that cannot be deleted is left to the cron, which revokes again. */
  function DoRemoveRow(s: State, w: nat, reply: Reply): State {
    if w !in s.workers || s.workers[w].phase != Removing then s
    else Gone(if reply == Refused then s else s.(db := s.db.(tasks := s.db.tasks - {s.workers[w].id})), w)
  }

  function DoCron(s: State, w: nat, id: nat): State {
    if w in s.workers || id !in s.db.tasks then s
    else s.(workers := s.workers[w := Worker(id, s.db.tasks[id], 1, Fencing)])
  }

  function Next(s: State, step: Step): State {
    match step
    case ReadUser(login) => s.(pending := s.pending[login := s.db.generation])
    case CreateSession(login, sid, createdAt, reply) => DoCreateSession(s, login, sid, createdAt, reply)
    case RevokeSession(sid, indexed) => s.(redis := s.redis.Delete(sid, indexed))
    case Bump(id, w, createdAt, expected) => DoBump(s, id, w, createdAt, expected)
    case SetFence(w, reply) => DoSetFence(s, w, reply)
    case ListSessions(w, ok) => DoListSessions(s, w, ok)
    case DeleteOne(w, sid, reply) => DoDeleteOne(s, w, sid, reply)
    case EndPass(w) => DoEndPass(s, w)
    case PublishRevocation(w, reply) => DoPublish(s, w, reply)
    case RemoveRow(w, reply) => DoRemoveRow(s, w, reply)
    case CronPicks(w, id) => DoCron(s, w, id)
    case Crash(w) => Gone(s, w)
  }

  function Exec(s: State, steps: seq<Step>): State {
    if steps == [] then s else Next(Exec(s, steps[..|steps| - 1]), steps[|steps| - 1])
  }

  function Init(generation: nat): State {
    State(Db(generation, map[], map[], {}), Redis(0, map[], {}), map[], map[])
  }

  // The gates.

  datatype Token = Token(sid: nat, generation: Option<nat>)

  /** The API guard: the session in Redis and the user in the database must both have the token's generation. */
  predicate Admits(token: Token, session: Option<Session>, deleted: bool, generation: nat) {
    && token.generation.Some?
    && session.Some?
    && token.generation.value == session.value.generation
    && !deleted
    && generation == token.generation.value
  }

  /** The realtime gate, with Redis at hand. */
  predicate PassesFence(r: Redis, generation: nat) {
    generation >= r.fence
  }

  // The invariant.

  /** The fence is up, and no session the task covers is left. */
  ghost predicate Revoked(r: Redis, task: Task) {
    && r.fence > task.generation
    && forall sid :: sid in r.sessions ==> !task.Covers(r.sessions[sid])
  }

  ghost predicate WorkerOk(s: State, x: Worker) {
    && x.id in s.db.bumps && s.db.bumps[x.id] == x.task
    && (!x.phase.Fencing? ==> s.redis.fence > x.task.generation)
    && (x.phase.Deleting? && !x.phase.failed ==>
          forall sid :: sid in s.redis.sessions && x.task.Covers(s.redis.sessions[sid]) ==> sid in x.phase.todo)
    && (x.phase.Publishing? || x.phase.Removing? ==> Revoked(s.redis, x.task))
    && (x.phase.Removing? ==> x.id in s.db.published)
  }

  ghost predicate BumpOk(s: State, id: nat)
    requires id in s.db.bumps
  {
    || (id in s.db.tasks && s.db.tasks[id] == s.db.bumps[id])
    || (id in s.db.published && Revoked(s.redis, s.db.bumps[id]))
  }

  ghost predicate DbOk(db: Db) {
    && (forall id :: id in db.bumps ==> db.bumps[id].generation < db.generation)
    && (forall id :: id in db.tasks ==> id in db.bumps && db.tasks[id] == db.bumps[id])
  }

  ghost predicate RedisOk(s: State) {
    && s.redis.sessions.Keys <= s.redis.index
    && s.redis.fence <= s.db.generation
    && (forall login :: login in s.pending ==> s.pending[login] <= s.db.generation)
    && (forall sid :: sid in s.redis.sessions ==> s.redis.sessions[sid].generation <= s.db.generation)
  }

  ghost predicate FenceInv(s: State) {
    && DbOk(s.db)
    && RedisOk(s)
    && (forall w :: w in s.workers ==> WorkerOk(s, s.workers[w]))
    && (forall id :: id in s.db.bumps ==> BumpOk(s, id))
  }

  /** The fence only rises, and sessions only appear above it. */
  ghost predicate RedisMoves(r: Redis, r': Redis) {
    && r.fence <= r'.fence
    && forall sid :: sid in r'.sessions ==>
         (sid in r.sessions && r.sessions[sid] == r'.sessions[sid]) || r'.sessions[sid].generation >= r.fence
  }

  lemma RedisStep(s: State, step: Step)
    ensures RedisMoves(s.redis, Next(s, step).redis)
  {
  }

  lemma RevokedStays(r: Redis, r': Redis, task: Task)
    requires Revoked(r, task) && RedisMoves(r, r')
    ensures Revoked(r', task)
  {
  }

  lemma WorkerStays(s: State, t: State, x: Worker)
    requires WorkerOk(s, x) && RedisMoves(s.redis, t.redis)
    requires x.id in t.db.bumps && t.db.bumps[x.id] == s.db.bumps[x.id] && s.db.published <= t.db.published
    ensures WorkerOk(t, x)
  {
  }

  lemma DbOkKeeps(s: State, step: Step)
    requires DbOk(s.db)
    ensures DbOk(Next(s, step).db) && s.db.generation <= Next(s, step).db.generation
  {
    if step.Bump? || step.RemoveRow? || step.PublishRevocation? {
      hide Redis.Create, Redis.Delete, Redis.Raise, Task.Covers;
    } else {
      SameDb(s, step);
      hide Next;
    }
  }

  /** The only fence a worker sets is that of its own task, and it stays within the generation. */
  lemma RedisOkKeeps(s: State, step: Step)
    requires FenceInv(s)
    ensures RedisOk(Next(s, step))
  {
    DbOkKeeps(s, step);
    if step.SetFence? && step.worker in s.workers {
      assert WorkerOk(s, s.workers[step.worker]);
    }
    SameRedis(s, step);
    hide WorkerOk, BumpOk, DbOk;
  }

  lemma SameRedis(s: State, step: Step)
    ensures !step.CreateSession? && !step.RevokeSession? && !step.SetFence? && !step.DeleteOne? ==> Next(s, step).redis == s.redis
    ensures !step.ReadUser? && !step.CreateSession? ==> Next(s, step).pending == s.pending
  {
    hide Redis.Create, Redis.Delete, Redis.Raise, Task.Covers;
  }

  lemma SameDb(s: State, step: Step)
    ensures !step.Bump? && !step.RemoveRow? && !step.PublishRevocation? ==> Next(s, step).db == s.db
  {
    hide Redis.Create, Redis.Delete, Redis.Raise, Task.Covers;
  }

  function WorkerOf(step: Step): set<nat> {
    match step
    case Bump(_, w, _, _) => {w}
    case SetFence(w, _) => {w}
    case ListSessions(w, _) => {w}
    case DeleteOne(w, _, _) => {w}
    case EndPass(w) => {w}
    case PublishRevocation(w, _) => {w}
    case RemoveRow(w, _) => {w}
    case CronPicks(w, _) => {w}
    case Crash(w) => {w}
    case _ => {}
  }

  lemma Frame(s: State, step: Step)
    ensures var t := Next(s, step);
            && s.db.published <= t.db.published
            && (forall id :: id in s.db.bumps ==> id in t.db.bumps && t.db.bumps[id] == s.db.bumps[id])
            && (forall w :: w in t.workers && w !in WorkerOf(step) ==> w in s.workers && t.workers[w] == s.workers[w])
  {
    hide Redis.Create, Redis.Delete, Redis.Raise, Task.Covers;
  }

  /** The step a worker takes leaves it with what its phase promises. */
  lemma OwnWorker(s: State, step: Step, w: nat)
    requires FenceInv(s) && w in WorkerOf(step) && w in Next(s, step).workers
    ensures WorkerOk(Next(s, step), Next(s, step).workers[w])
  {
    if w in s.workers {
      assert WorkerOk(s, s.workers[w]);
    }
    if step.DeleteOne? {
      DeleteOneOk(s, step);
      hide WorkerOk, FenceInv;
    } else if step.EndPass? {
      EndPassOk(s, w);
      hide WorkerOk, FenceInv;
    } else if step.Bump? || step.CronPicks? {
      NewWorkerOk(s, step);
      hide WorkerOk, FenceInv;
    } else {
      PhaseOk(s, step, w);
      hide WorkerOk, FenceInv, Next;
    }
  }

  lemma NewWorkerOk(s: State, step: Step)
    requires FenceInv(s) && (step.Bump? || step.CronPicks?)
    requires step.worker in s.workers ==> WorkerOk(s, s.workers[step.worker])
    ensures step.worker in Next(s, step).workers ==> WorkerOk(Next(s, step), Next(s, step).workers[step.worker])
  {
    hide BumpOk, RedisOk, Task.Covers;
  }

  /** The steps that move a worker on, or back to the start of its next attempt. */
  lemma PhaseOk(s: State, step: Step, w: nat)
    requires w in WorkerOf(step) && w in s.workers && WorkerOk(s, s.workers[w]) && w in Next(s, step).workers
    requires s.redis.sessions.Keys <= s.redis.index
    requires !step.Bump? && !step.CronPicks? && !step.DeleteOne? && !step.EndPass?
    ensures WorkerOk(Next(s, step), Next(s, step).workers[w])
  {
    hide Task.Covers, Redis.Create, Redis.Delete;
  }

  lemma DeleteOneOk(s: State, step: Step)
    requires step.DeleteOne? && step.worker in s.workers && WorkerOk(s, s.workers[step.worker])
    ensures WorkerOk(Next(s, step), Next(s, step).workers[step.worker])
  {
  }

  lemma EndPassOk(s: State, w: nat)
    requires w in s.workers && WorkerOk(s, s.workers[w])
    ensures w in DoEndPass(s, w).workers ==> WorkerOk(DoEndPass(s, w), DoEndPass(s, w).workers[w])
  {
  }

  predicate Removes(s: State, step: Step, id: nat) {
    step.RemoveRow? && step.worker in s.workers && s.workers[step.worker].id == id && s.workers[step.worker].phase == Removing
  }

  lemma TaskStays(s: State, step: Step, id: nat)
    requires id in s.db.tasks && id in s.db.bumps && !Removes(s, step, id)
    ensures id in Next(s, step).db.tasks && Next(s, step).db.tasks[id] == s.db.tasks[id]
  {
    hide Redis.Create, Redis.Delete, Redis.Raise, Task.Covers;
  }

  lemma BumpKeeps(s: State, step: Step, id: nat)
    requires FenceInv(s) && id in s.db.bumps && id in Next(s, step).db.bumps
    ensures BumpOk(Next(s, step), id)
  {
    var t := Next(s, step);
    Frame(s, step);
    RedisStep(s, step);
    assert BumpOk(s, id);
    if Removes(s, step, id) {
      assert WorkerOk(s, s.workers[step.worker]);
    }
    hide FenceInv, Next, Revoked, RedisMoves;
    if id in s.db.published && Revoked(s.redis, s.db.bumps[id]) {
      RevokedStays(s.redis, t.redis, s.db.bumps[id]);
    } else {
      TaskStays(s, step, id);
    }
  }

  lemma FenceKeeps(s: State, step: Step)
    requires FenceInv(s)
    ensures FenceInv(Next(s, step))
  {
    var t := Next(s, step);
    RedisOkKeeps(s, step);
    DbOkKeeps(s, step);
    Frame(s, step);
    RedisStep(s, step);
    forall w | w in t.workers ensures WorkerOk(t, t.workers[w]) {
      if w in WorkerOf(step) {
        OwnWorker(s, step, w);
      } else {
        assert WorkerOk(s, s.workers[w]);
        hide Next, RedisOk, DbOk, BumpOk, RedisMoves;
        WorkerStays(s, t, s.workers[w]);
      }
    }
    forall id | id in t.db.bumps ensures BumpOk(t, id) {
      if id in s.db.bumps {
        BumpKeeps(s, step, id);
      } else {
        NewBump(s, step, id);
      }
    }
  }

  lemma NewBump(s: State, step: Step, id: nat)
    requires id in Next(s, step).db.bumps && id !in s.db.bumps
    ensures BumpOk(Next(s, step), id)
  {
    hide Revoked;
  }

  /**
   Nothing of a revocation is forgotten: at every point of every run, whatever crashes or fails, each committed bump
   still has its task row, or its revocation was published, the fence is above it and no session it covers is left.
   */
  lemma {:induction false} RevocationIsDurable(generation: nat, steps: seq<Step>)
    ensures FenceInv(Exec(Init(generation), steps))
    decreases |steps|
  {
    if steps != [] {
      hide FenceInv, Next;
      RevocationIsDurable(generation, steps[..|steps| - 1]);
      FenceKeeps(Exec(Init(generation), steps[..|steps| - 1]), steps[|steps| - 1]);
    }
  }

  // What follows from it.

  /**
   After a bump has committed no token of its generation or an older one is ever admitted again, whatever Redis holds.
   */
  lemma NoOldTokenAdmitted(generation: nat, steps: seq<Step>, id: nat, token: Token, session: Option<Session>, deleted: bool)
    requires var s := Exec(Init(generation), steps); id in s.db.bumps && Admits(token, session, deleted, s.db.generation)
    ensures token.generation.value > Exec(Init(generation), steps).db.bumps[id].generation
  {
    RevocationIsDurable(generation, steps);
  }

  /** What getSession finds. */
  function Lookup(r: Redis, sid: nat): Option<Session> {
    if sid in r.sessions then Some(r.sessions[sid]) else None
  }

  /** A session once deleted stays away as long as no login creates it again. */
  lemma {:induction false} DeletedStays(s: State, more: seq<Step>, sid: nat)
    requires sid !in s.redis.sessions
    requires forall i :: 0 <= i < |more| && more[i].CreateSession? ==> more[i].sid != sid
    ensures sid !in Exec(s, more).redis.sessions
    decreases |more|
  {
    if more != [] {
      DeletedStays(s, more[..|more| - 1], sid);
      hide Exec, Task.Covers, Redis.Raise;
    }
  }

  /**
   Logging out is immediate. From the revocation of a session on, and until a login creates one with its id again, no
   token of it is admitted with what Redis holds, whatever its generation and whatever the database says.
   */
  lemma RevokedSessionRefused(s: State, sid: nat, indexed: bool, more: seq<Step>, token: Token, deleted: bool, current: nat)
    requires token.sid == sid
    requires forall i :: 0 <= i < |more| && more[i].CreateSession? ==> more[i].sid != sid
    ensures !Admits(token, Lookup(Exec(Next(s, RevokeSession(sid, indexed)), more).redis, sid), deleted, current)
  {
    DeletedStays(Next(s, RevokeSession(sid, indexed)), more, sid);
    hide Exec;
  }

  /** The generation is the first one, or a bump has left it there; sessions are of a generation that there was. */
  ghost predicate GenerationInv(first: nat, s: State) {
    && s.db.generation >= first
    && (s.db.generation > first ==> exists id :: id in s.db.bumps && s.db.bumps[id].generation + 1 == s.db.generation)
    && (forall login :: login in s.pending ==> s.pending[login] >= first)
    && (forall sid :: sid in s.redis.sessions ==> s.redis.sessions[sid].generation >= first)
  }

  lemma GenerationKeeps(first: nat, s: State, step: Step)
    requires GenerationInv(first, s)
    ensures GenerationInv(first, Next(s, step))
  {
    var t := Next(s, step);
    if step.Bump? {
      if t.db.generation > s.db.generation {
        assert step.id in t.db.bumps && t.db.bumps[step.id].generation + 1 == t.db.generation;
      }
    } else {
      assert t.db.generation == s.db.generation && t.db.bumps == s.db.bumps;
    }
    hide Task.Covers, Redis.Raise, Fails;
  }

  lemma {:induction false} GenerationHolds(first: nat, steps: seq<Step>)
    ensures GenerationInv(first, Exec(Init(first), steps))
    decreases |steps|
  {
    if steps != [] {
      hide GenerationInv, Next;
      GenerationHolds(first, steps[..|steps| - 1]);
      GenerationKeeps(first, Exec(Init(first), steps[..|steps| - 1]), steps[|steps| - 1]);
    }
  }

  /**
   Who is admitted. In every run, with what Redis and the database hold, a token is admitted if and only if the user is
   not deleted, its session is there and is of the token's own generation, and every committed bump was of an older one.
   */
  lemma AdmittedIff(first: nat, steps: seq<Step>, token: Token, deleted: bool)
    ensures var s := Exec(Init(first), steps);
            Admits(token, Lookup(s.redis, token.sid), deleted, s.db.generation)
            <==> && !deleted
                 && token.sid in s.redis.sessions
                 && token.generation == Some(s.redis.sessions[token.sid].generation)
                 && forall id :: id in s.db.bumps ==> s.db.bumps[id].generation < s.redis.sessions[token.sid].generation
  {
    RevocationIsDurable(first, steps);
    GenerationHolds(first, steps);
    var s := Exec(Init(first), steps);
    hide Exec, WorkerOk, BumpOk;
    if token.sid in s.redis.sessions && s.redis.sessions[token.sid].generation < s.db.generation {
      var id :| id in s.db.bumps && s.db.bumps[id].generation + 1 == s.db.generation;
      assert s.db.bumps[id].generation >= s.redis.sessions[token.sid].generation;
    }
  }

  /** Once a task is carried out the realtime gate is shut too, and stays shut, to every token of an older generation. */
  lemma RealtimeGateShut(generation: nat, steps: seq<Step>, id: nat, old': nat)
    requires var s := Exec(Init(generation), steps); id in s.db.bumps && id !in s.db.tasks && old' <= s.db.bumps[id].generation
    ensures var s := Exec(Init(generation), steps);
            && id in s.db.published
            && !PassesFence(s.redis, old')
            && forall sid :: sid in s.redis.sessions ==> !s.db.bumps[id].Covers(s.redis.sessions[sid])
  {
    RevocationIsDurable(generation, steps);
    assert BumpOk(Exec(Init(generation), steps), id);
  }

  /** The fence never shuts out the current generation: a login with it always gets its session. */
  lemma CurrentLoginSucceeds(generation: nat, steps: seq<Step>, sid: nat, createdAt: int)
    requires sid !in Exec(Init(generation), steps).redis.index
    ensures var s := Exec(Init(generation), steps);
            var x := Session(s.db.generation, createdAt);
            var r := s.redis.Create(sid, x);
            sid in r.sessions && r.sessions[sid] == x && PassesFence(r, s.db.generation)
            && Admits(Token(sid, Some(s.db.generation)), Some(r.sessions[sid]), false, s.db.generation)
  {
    RevocationIsDurable(generation, steps);
  }

  // What single steps do.

  /** Sessions come only from logins, one for each, and never change: they are as they were created until they are deleted. */
  lemma SessionsNeverChange(s: State, step: Step, sid: nat)
    requires s.redis.sessions.Keys <= s.redis.index && sid in Next(s, step).redis.sessions
    ensures var t := Next(s, step);
            || (sid in s.redis.sessions && t.redis.sessions[sid] == s.redis.sessions[sid])
            || (step.CreateSession? && step.sid == sid && step.login in s.pending && step.login !in t.pending
                && t.redis.sessions[sid] == Session(s.pending[step.login], step.createdAt))
  {
    hide Task.Covers;
  }

  /** A login whose call gets through has its session, unless its generation is below the fence or the id is taken. */
  lemma LoginCreates(s: State, login: nat, sid: nat, createdAt: int, reply: Reply)
    requires login in s.pending
    ensures var t := Next(s, CreateSession(login, sid, createdAt, reply));
            && login !in t.pending
            && (t.redis == s.redis <==> reply == Refused || s.pending[login] < s.redis.fence || sid in s.redis.index)
            && (t.redis != s.redis ==> Lookup(t.redis, sid) == Some(Session(s.pending[login], createdAt)) && sid in t.redis.index)
  {
    assert sid in s.redis.Create(sid, Session(s.pending[login], createdAt)).index || s.pending[login] < s.redis.fence;
  }

  /** A bump goes through unless the caller has read another generation; its task covers all sessions up to its date. */
  lemma BumpTakes(s: State, id: nat, w: nat, createdAt: int, expected: Option<nat>)
    requires RedisOk(s) && id !in s.db.bumps
    ensures var t := Next(s, Bump(id, w, createdAt, expected));
            && (t == s <==> w in s.workers || (expected.Some? && expected.value != s.db.generation))
            && (t != s ==>
                  && t.db.generation == s.db.generation + 1 && t.redis == s.redis
                  && id in t.db.tasks && w in t.workers && t.workers[w] == Worker(id, t.db.tasks[id], ATTEMPTS, Fencing)
                  && forall sid :: sid in s.redis.sessions ==>
                       (t.db.tasks[id].Covers(s.redis.sessions[sid]) <==> s.redis.sessions[sid].createdAt <= createdAt))
  {
  }

  /** What became of the call a worker's step makes. */
  function ReplyOf(step: Step): Option<Reply> {
    match step
    case SetFence(_, reply) => Some(reply)
    case ListSessions(_, ok) => Some(if ok then Acked else Refused)
    case DeleteOne(_, _, reply) => Some(reply)
    case PublishRevocation(_, reply) => Some(reply)
    case RemoveRow(_, reply) => Some(reply)
    case _ => None
  }

  /** The worker is where it makes this call. */
  predicate InPhase(s: State, step: Step) {
    match step
    case SetFence(w, _) => w in s.workers && s.workers[w].phase == Fencing
    case ListSessions(w, _) => w in s.workers && s.workers[w].phase == Listing
    case DeleteOne(w, sid, _) => w in s.workers && s.workers[w].phase.Deleting? && sid in s.workers[w].phase.todo
    case PublishRevocation(w, _) => w in s.workers && s.workers[w].phase == Publishing
    case RemoveRow(w, _) => w in s.workers && s.workers[w].phase == Removing
    case CronPicks(w, id) => w !in s.workers && id in s.db.tasks
    case _ => true
  }

  /** A worker calls in order, and a call that is refused changes nothing but the worker. */
  lemma RefusedChangesNothing(s: State, step: Step)
    ensures !InPhase(s, step) ==> Next(s, step) == s
    ensures ReplyOf(step) == Some(Refused) ==> Next(s, step).db == s.db && Next(s, step).redis == s.redis
  {
    hide Redis.Create, Redis.Raise, Redis.Delete, Task.Covers;
  }

  /** A worker that could not raise the fence, list the sessions or publish starts over, or is gone with its last attempt. */
  lemma FailedCallStartsOver(s: State, step: Step, w: nat)
    requires InPhase(s, step) && ReplyOf(step) != Some(Acked)
    requires step.SetFence? || step.ListSessions? || step.PublishRevocation?
    requires w == step.worker
    ensures var x, t := s.workers[w], Next(s, step);
            t.workers == if x.left > 1 then s.workers[w := Worker(x.id, x.task, x.left - 1, Fencing)] else s.workers - {w}
  {
    hide Redis.Create, Redis.Delete, Task.Covers;
  }

  /** Where the index entry of a deleted session could not be removed it stays, and only there. */
  lemma EntryStaysIff(s: State, sid: nat, indexed: bool, w: nat, reply: Reply)
    ensures sid in s.redis.index ==> (sid in Next(s, RevokeSession(sid, indexed)).redis.index <==> indexed)
    ensures InPhase(s, DeleteOne(w, sid, reply)) && sid in s.redis.index && sid !in s.redis.sessions ==>
              (sid in Next(s, DeleteOne(w, sid, reply)).redis.index <==> reply != Acked)
  {
  }

  /** A worker whose calls fail has as many attempts as it started with, and then leaves the row to the cron. */
  lemma {:induction false} AttemptsRunOut(s: State, w: nat, n: nat)
    requires w in s.workers && s.workers[w].phase == Fencing && s.workers[w].left > 0
    ensures Exec(s, seq(n, i => SetFence(w, Refused)))
            == s.(workers := if n < s.workers[w].left then s.workers[w := s.workers[w].(left := s.workers[w].left - n)]
                             else s.workers - {w})
    decreases n
  {
    var steps := seq(n, i => SetFence(w, Refused));
    if n > 0 {
      var before := seq(n - 1, i => SetFence(w, Refused));
      assert steps[..n - 1] == before && steps[n - 1] == SetFence(w, Refused);
      AttemptsRunOut(s, w, n - 1);
      var t := Exec(s, before);
      hide Exec;
      if n < s.workers[w].left {
        assert t.workers[w := t.workers[w].(left := t.workers[w].left - 1)] == s.workers[w := s.workers[w].(left := s.workers[w].left - n)];
      } else if n == s.workers[w].left {
        assert t.workers - {w} == s.workers - {w};
      }
    } else {
      assert s.workers[w := s.workers[w]] == s.workers;
    }
  }

  // A revocation can always be completed.

  /** The sessions a task leaves: exactly those it does not cover. */
  function Survivors(sessions: map<nat, Session>, task: Task): map<nat, Session> {
    map sid | sid in sessions && !task.Covers(sessions[sid]) :: sessions[sid]
  }

  /** The index entries a pass over todo leaves: those not looked at, and those of spared sessions. */
  function Unlisted(r: Redis, todo: set<nat>, task: Task): set<nat> {
    set sid | sid in r.index && (sid !in todo || sid in Survivors(r.sessions, task))
  }

  function Unrevoked(r: Redis, todo: set<nat>, task: Task): map<nat, Session> {
    map sid | sid in r.sessions && (sid !in todo || !task.Covers(r.sessions[sid])) :: r.sessions[sid]
  }

  /** A pass in which every deletion is acknowledged. */
  lemma {:induction false} PassDeletes(s: State, w: nat) returns (more: seq<Step>)
    requires w in s.workers && s.workers[w].phase.Deleting? && !s.workers[w].phase.failed
    ensures var x := s.workers[w];
            Exec(s, more) == s.(redis := Redis(s.redis.fence, Unrevoked(s.redis, x.phase.todo, x.task), Unlisted(s.redis, x.phase.todo, x.task)),
                                workers := s.workers[w := x.(phase := Deleting({}, false))])
    decreases |s.workers[w].phase.todo|
  {
    var x := s.workers[w];
    var todo := x.phase.todo;
    if todo == {} {
      more := [];
      assert Unrevoked(s.redis, todo, x.task) == s.redis.sessions && Unlisted(s.redis, todo, x.task) == s.redis.index;
      assert s.workers[w := x] == s.workers;
    } else {
      var sid :| sid in todo;
      var t := Next(s, DeleteOne(w, sid, Acked));
      var rest := PassDeletes(t, w);
      more := [DeleteOne(w, sid, Acked)] + rest;
      ExecFirst(s, DeleteOne(w, sid, Acked), rest);
      assert Unrevoked(t.redis, todo - {sid}, x.task) == Unrevoked(s.redis, todo, x.task);
      assert Unlisted(t.redis, todo - {sid}, x.task) == Unlisted(s.redis, todo, x.task);
      assert t.workers[w := x.(phase := Deleting({}, false))] == s.workers[w := x.(phase := Deleting({}, false))];
      hide Exec, Next;
    }
  }

  lemma {:induction false} ExecFirst(s: State, step: Step, rest: seq<Step>)
    ensures Exec(s, [step] + rest) == Exec(Next(s, step), rest)
    decreases |rest|
  {
    hide Next;
    var run := [step] + rest;
    if rest != [] {
      ExecFirst(s, step, rest[..|rest| - 1]);
      assert run[..|run| - 1] == [step] + rest[..|rest| - 1];
    } else {
      assert run[..0] == [];
    }
  }

  /** The task carried out: fence up, exactly the sessions it does not cover left, the revocation published, the row gone. */
  function Done(s: State, id: nat, task: Task): State {
    s.(redis := Redis(if task.generation + 1 > s.redis.fence then task.generation + 1 else s.redis.fence,
                      Survivors(s.redis.sessions, task), Survivors(s.redis.sessions, task).Keys),
       db := s.db.(published := s.db.published + {id}, tasks := s.db.tasks - {id}))
  }

  /** The three calls after the pass. */
  lemma WorkerEnds(s: State, w: nat) returns (more: seq<Step>)
    requires w in s.workers && s.workers[w].phase == Deleting({}, false)
    ensures var id := s.workers[w].id;
            Exec(s, more) == s.(workers := s.workers - {w},
                                db := s.db.(published := s.db.published + {id}, tasks := s.db.tasks - {id}))
  {
    more := [EndPass(w), PublishRevocation(w, Acked), RemoveRow(w, Acked)];
    var a := Next(s, EndPass(w));
    var b := Next(a, PublishRevocation(w, Acked));
    var c := Next(b, RemoveRow(w, Acked));
    assert c.workers == s.workers - {w};
    assert more == [EndPass(w)] + ([PublishRevocation(w, Acked)] + ([RemoveRow(w, Acked)] + []));
    hide Next;
    assert Exec(c, []) == c;
    ExecFirst(b, RemoveRow(w, Acked), []);
    ExecFirst(a, PublishRevocation(w, Acked), [RemoveRow(w, Acked)] + []);
    ExecFirst(s, EndPass(w), [PublishRevocation(w, Acked)] + ([RemoveRow(w, Acked)] + []));
  }

  /** The two calls before the pass. */
  lemma WorkerBegins(s: State, w: nat, rest: seq<Step>)
    requires w in s.workers && s.workers[w].phase == Fencing
    ensures var x := s.workers[w];
            Exec(s, [SetFence(w, Acked)] + ([ListSessions(w, true)] + rest))
            == Exec(s.(redis := s.redis.Raise(x.task.generation + 1),
                       workers := s.workers[w := x.(phase := Deleting(s.redis.index, false))]), rest)
  {
    var x := s.workers[w];
    var a := Next(s, SetFence(w, Acked));
    var b := Next(a, ListSessions(w, true));
    assert b.workers == s.workers[w := x.(phase := Deleting(s.redis.index, false))];
    hide Next, Exec;
    ExecFirst(s, SetFence(w, Acked), [ListSessions(w, true)] + rest);
    ExecFirst(a, ListSessions(w, true), rest);
  }

  lemma {:induction false} ExecConcat(s: State, a: seq<Step>, b: seq<Step>)
    ensures Exec(s, a + b) == Exec(Exec(s, a), b)
    decreases |b|
  {
    hide Next;
    if b != [] {
      ExecConcat(s, a, b[..|b| - 1]);
      assert (a + b)[..|a + b| - 1] == a + b[..|b| - 1];
    } else {
      assert a + b == a;
    }
  }

  /** A worker whose calls all get through carries its task out, to the last session, and is done. */
  lemma WorkerCompletes(s: State, w: nat) returns (more: seq<Step>)
    requires w in s.workers && s.workers[w].phase == Fencing && s.redis.sessions.Keys <= s.redis.index
    ensures Exec(s, more) == Done(s, s.workers[w].id, s.workers[w].task).(workers := s.workers - {w})
  {
    var x := s.workers[w];
    var t := s.(redis := s.redis.Raise(x.task.generation + 1), workers := s.workers[w := x.(phase := Deleting(s.redis.index, false))]);
    var pass := PassDeletes(t, w);
    var u := Exec(t, pass);
    assert Unrevoked(t.redis, s.redis.index, x.task) == Survivors(s.redis.sessions, x.task);
    assert Unlisted(t.redis, s.redis.index, x.task) == Survivors(s.redis.sessions, x.task).Keys;
    var end := WorkerEnds(u, w);
    assert u.workers - {w} == s.workers - {w};
    more := [SetFence(w, Acked)] + ([ListSessions(w, true)] + (pass + end));
    WorkerBegins(s, w, pass + end);
    hide Exec;
    ExecConcat(t, pass, end);
  }

  /**
   A revocation can always be completed. Whatever has failed or crashed before, a task row that is still there can be
   picked up by the cron and carried out: in the end the fence is up, exactly the sessions the task does not cover are
   left, the revocation is published and the row is gone, and nothing else has changed.
   */
  lemma RowCanBeCompleted(first: nat, steps: seq<Step>, id: nat, w: nat)
    requires id in Exec(Init(first), steps).db.tasks && w !in Exec(Init(first), steps).workers
    ensures var s := Exec(Init(first), steps); exists more :: Exec(s, more) == Done(s, id, s.db.tasks[id])
  {
    RevocationIsDurable(first, steps);
    var s := Exec(Init(first), steps);
    var t := Next(s, CronPicks(w, id));
    assert t == s.(workers := s.workers[w := Worker(id, s.db.tasks[id], 1, Fencing)]);
    var more := WorkerCompletes(t, w);
    assert t.workers - {w} == s.workers;
    hide Next, Exec;
    ExecFirst(s, CronPicks(w, id), more);
    assert Exec(s, [CronPicks(w, id)] + more) == Done(s, id, s.db.tasks[id]);
  }

  // What revoking leaves behind.

  lemma StepOn(run: seq<Step>, s: State, step: Step) returns (run': seq<Step>, s': State)
    requires s == Exec(Init(1), run)
    ensures run' == run + [step] && s' == Next(s, step) && s' == Exec(Init(1), run')
  {
    run', s' := run + [step], Next(s, step);
    assert run'[..|run|] == run;
  }

  const LATE := Session(1, 6)
  const ROW := Task(1, 5)

  lemma LateLogin() returns (s1: State, s2: State, s3: State)
    ensures s1 == Next(Init(1), ReadUser(1)) && s2 == Next(s1, Bump(1, 1, 5, None)) && s3 == Next(s2, CreateSession(1, 7, 6, Acked))
    ensures s3.db == Db(2, map[1 := ROW], map[1 := ROW], {}) && s3.redis == Redis(0, map[7 := LATE], {7})
    ensures s3.workers == map[1 := Worker(1, ROW, ATTEMPTS, Fencing)]
  {
    s1 := Next(Init(1), ReadUser(1));
    s2 := Next(s1, Bump(1, 1, 5, None));
    s3 := Next(s2, CreateSession(1, 7, 6, Acked));
    assert s3.redis.sessions == map[7 := LATE] && s3.redis.index == {7};
  }

  lemma LatePass(s3: State) returns (s4: State, s5: State, s6: State, s7: State)
    requires s3.redis == Redis(0, map[7 := LATE], {7}) && s3.workers == map[1 := Worker(1, ROW, ATTEMPTS, Fencing)]
    ensures s4 == Next(s3, SetFence(1, Acked)) && s5 == Next(s4, ListSessions(1, true))
    ensures s6 == Next(s5, DeleteOne(1, 7, Acked)) && s7 == Next(s6, EndPass(1))
    ensures s7.db == s3.db && s7.redis == Redis(2, map[7 := LATE], {7}) && s7.workers == map[1 := Worker(1, ROW, ATTEMPTS, Publishing)]
  {
    s4 := Next(s3, SetFence(1, Acked));
    assert s4.workers[1].phase == Listing;
    s5 := Next(s4, ListSessions(1, true));
    assert s5.workers[1].phase == Deleting({7}, false) && s5.redis == Redis(2, map[7 := LATE], {7});
    s6 := Next(s5, DeleteOne(1, 7, Acked));
    assert s6.workers[1].phase == Deleting({}, false);
    s7 := Next(s6, EndPass(1));
  }

  lemma LateEnd(s7: State) returns (s8: State, s9: State)
    requires s7.workers == map[1 := Worker(1, ROW, ATTEMPTS, Publishing)] && s7.db == Db(2, map[1 := ROW], map[1 := ROW], {})
    ensures s8 == Next(s7, PublishRevocation(1, Acked)) && s9 == Next(s8, RemoveRow(1, Acked))
    ensures s9.db.tasks == map[] && s9.db.bumps == map[1 := ROW] && s9.redis == s7.redis && s9.db.generation == 2
  {
    s8 := Next(s7, PublishRevocation(1, Acked));
    assert s8.workers[1].phase == Removing;
    s9 := Next(s8, RemoveRow(1, Acked));
  }

  /**
   Revoking does not remove every session of the old generation: one created by a login that had read the user before
   the bump, later than the row's time and before the fence, is spared by its date. Only the gates keep it out.
   */
  lemma LateSessionSurvives() returns (steps: seq<Step>)
    ensures var s := Exec(Init(1), steps);
            && 1 in s.db.bumps && 1 !in s.db.tasks && 7 in s.redis.sessions
            && s.redis.sessions[7].generation <= s.db.bumps[1].generation
            && !PassesFence(s.redis, s.redis.sessions[7].generation)
            && !Admits(Token(7, Some(1)), Some(s.redis.sessions[7]), false, s.db.generation)
  {
    var s1, s2, s3 := LateLogin();
    var s4, s5, s6, s7 := LatePass(s3);
    var s8, s9 := LateEnd(s7);
    hide Next, Init;
    var s;
    steps, s := StepOn([], Init(1), ReadUser(1));
    steps, s := StepOn(steps, s, Bump(1, 1, 5, None));
    steps, s := StepOn(steps, s, CreateSession(1, 7, 6, Acked));
    steps, s := StepOn(steps, s, SetFence(1, Acked));
    steps, s := StepOn(steps, s, ListSessions(1, true));
    steps, s := StepOn(steps, s, DeleteOne(1, 7, Acked));
    steps, s := StepOn(steps, s, EndPass(1));
    steps, s := StepOn(steps, s, PublishRevocation(1, Acked));
    steps, s := StepOn(steps, s, RemoveRow(1, Acked));
  }

  class AuthSessionService {
    var fence: nat
    var sessions: map<nat, Session>
    var index: set<nat>

    function View(): Redis
      reads this
    {
      Redis(fence, sessions, index)
    }

    method CreateSession(sid: nat, generation: nat, createdAt: int) returns (created: bool)
      requires sid !in index
      modifies this`sessions, this`index
      ensures View() == old(View()).Create(sid, Session(generation, createdAt))
      ensures created <==> PassesFence(View(), generation)
    {
      if generation < fence {
        return false;
      }
      sessions := sessions[sid := Session(generation, createdAt)];
      index := index + {sid};
      created := true;
    }

    /**
     The fence goes up before the index is read. errors are the sessions whose deletion fails in this pass. It reports
     success exactly when none of them had to be deleted, and then what is left is what the task does not cover.
     */
    method RevokeAllUserSessions(task: Task, errors: set<nat>) returns (ok: bool)
      requires sessions.Keys <= index
      modifies this
      ensures fence == old(View()).Raise(task.generation + 1).fence > task.generation
      ensures sessions.Keys <= index
      ensures ok <==> forall sid :: sid in old(index) && sid in errors ==>
                        sid in old(sessions) && !task.Covers(old(sessions)[sid])
      ensures ok ==> sessions == Survivors(old(sessions), task)
      ensures forall sid :: sid in index <==> sid in old(index) && (sid in errors || sid in Survivors(old(sessions), task))
      ensures forall sid :: sid in Survivors(old(sessions), task) ==> sid in sessions && sessions[sid] == old(sessions)[sid]
    {
      if task.generation + 1 > fence {
        fence := task.generation + 1;
      }
      var todo := index;
      ok := true;
      while todo != {}
        invariant fence == old(View()).Raise(task.generation + 1).fence
        invariant todo <= old(index) && sessions.Keys <= index && index <= old(index)
        invariant forall sid :: sid in sessions <==>
                    sid in old(sessions) && (sid in todo || sid in errors || !task.Covers(old(sessions)[sid]))
        invariant forall sid :: sid in sessions ==> sessions[sid] == old(sessions)[sid]
        invariant forall sid :: sid in index <==>
                    sid in old(index) && (sid in todo || sid in errors || sid in Survivors(old(sessions), task))
        invariant ok <==> forall sid :: sid in old(index) && sid !in todo && sid in errors ==>
                            sid in old(sessions) && !task.Covers(old(sessions)[sid])
        decreases todo
      {
        var sid :| sid in todo;
        todo := todo - {sid};
        if sid in sessions && !task.Covers(sessions[sid]) {
          continue;
        }
        if sid in errors {
          ok := false;
        } else {
          sessions, index := sessions - {sid}, index - {sid};
        }
      }
    }
  }
}
