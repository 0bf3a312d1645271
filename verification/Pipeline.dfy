/** The publish pipeline as a step system: any number of schedulers and workers over
    shared tables and one queue (cmd/scheduler/main.go, cmd/worker/main.go).

    Every statement or network call that other processes can come between is a step of
    its own. Statements read committed rows plus the transaction's own writes. A step
    never waits for a row lock, so the system has every run the database allows and
    some that its locks would only delay. */
module Pipeline {
  import opened Base
  import opened Providers
  import opened Content
  import opened Tables
  import opened Services
  import opened Accounts
  import opened Registry
  import opened Posts

  const MAX_ATTEMPTS := 3
  const SCAN_LIMIT := 200

  // ---------- jobs, row changes, verdicts ----------

  datatype Job = Job(post: int, account: int, attempt: int) {
    function At(): Key { Key(post, account) }
  }

  /** The two updates a worker makes to its post_accounts row. */
  datatype Change = Succeeded(id: string) | Errored(error: Error) {
    function On(row: Row): Row {
      match this
      case Succeeded(id) => row.(providerPostId := Some(id), errors := None)
      case Errored(error) => row.(errors := Some(error))
    }
  }

  /** `UPDATE post_accounts ... WHERE post_id = $1 AND account_id = $2`. */
  function Changed(rows: map<int, Row>, k: Key, change: Change): map<int, Row> {
    map i | i in rows :: if rows[i].At() == k then change.On(rows[i]) else rows[i]
  }

  datatype Verdict = Unfinished | AllPublished | SomeFailed

  /** The decision finalizePostIfDoneTx takes from the two counts it selects. */
  function Judge(rows: map<int, Row>, p: int): Verdict {
    if PendingCount(rows, p) > 0 then Unfinished
    else if FailedCount(rows, p) > 0 then SomeFailed
    else AllPublished
  }

  function FinalPost(post: Post, verdict: Verdict, at: int): Post {
    match verdict
    case Unfinished => post
    case SomeFailed => post.(status := FAILED, scheduleStatus := COMPLETE)
    case AllPublished => post.(status := PUBLISHED, scheduleStatus := COMPLETE, publishedAt := Some(at))
  }

  function Finalized(posts: map<int, Post>, p: int, verdict: Verdict, at: int): map<int, Post> {
    if p in posts then posts[p := FinalPost(posts[p], verdict, at)] else posts
  }

  /** What committing a worker's transaction does to the tables. */
  function Settled(db: Db, k: Key, change: Change, verdict: Verdict, at: int): Db {
    db.(rows := Changed(db.rows, k, change),
        posts := Finalized(db.posts, k.post, verdict, at),
        catalog := if change == Errored(Unauthorized) then MarkUnauthorized(db.catalog, k.account) else db.catalog)
  }

  /** The join of post_accounts and accounts the worker reads first. */
  function FetchAccount(db: Db, k: Key): Option<Account> {
    if HasRow(db.rows, k) && k.account in db.catalog.accounts then Some(db.catalog.accounts[k.account]) else None
  }

  // ---------- processes ----------

  datatype Phase =
    | Idle
    | Popped(job: Job)
    | AccountRead(job: Job, account: Account)
    | ServiceRead(job: Job, account: Account, config: Config)
    | TextRead(job: Job, account: Account, config: Config, text: string)
    | Sent(job: Job, id: string)                          // accepted by the provider, nothing written yet
    | Wrote(job: Job, change: Change)                     // row updated, uncommitted
    | Counted(job: Job, change: Change, verdict: Verdict, at: int, seen: nat, gone: set<int>)
    | Failing(job: Job, error: Error)                     // processing returned an error

  datatype Scheduler =
    | Resting
    | Scanning(todo: seq<int>)
    | Pushing(post: int, accounts: seq<int>, todo: seq<int>)

  // ---------- history, only for stating properties ----------

  /** What happened for one (post, account) since its post was last claimed. */
  datatype Tally = Tally(pops: nat, calls: nat, accepted: nat, unrecorded: nat)

  const ZERO := Tally(0, 0, 0, 0)

  /** What happened to a post since it was claimed. */
  datatype Claim = Claim(
    accounts: seq<int>,             // the list read by the claim
    publishedBefore: Option<int>,
    finals: nat,                    // verdicts committed
    changes: nat,                   // settlements committed and open rows deleted
    late: bool,                     // still running, and the last of those changes did not look at the rows it left
    gone: set<int>,                 // accounts whose row was deleted
    failed: set<int>,               // accounts whose error was committed
    goneThen: set<int>              // `gone` when the last committed verdict was counted
  )

  function NewClaim(accounts: seq<int>, publishedBefore: Option<int>): Claim {
    Claim(accounts, publishedBefore, 0, 0, false, {}, {}, {})
  }

  datatype History = History(tally: map<Key, Tally>, claims: map<int, Claim>, lost: set<Key>) {
    function Of(k: Key): Tally { if k in tally then tally[k] else ZERO }
    function Record(k: Key, t: Tally): (h: History)
      ensures forall j :: h.Of(j) == if j == k then t else Of(j)
    {
      this.(tally := tally[k := t])
    }
    /** A claim or an edit starts the history of a post afresh. */
    function Forget(p: int): (h: History)
      ensures forall j :: h.Of(j) == if j.post == p then ZERO else Of(j)
    {
      History(map k | k in tally && k.post != p :: tally[k], claims - {p}, set k | k in lost && k.post != p)
    }
  }

  datatype State = State(
    db: Db,
    queue: seq<Job>,
    workers: seq<Phase>,
    schedulers: seq<Scheduler>,
    now: int,
    past: History
  )

  // ---------- where jobs are ----------

  function Held(phase: Phase): multiset<Key> {
    if phase.Idle? then multiset{} else multiset{phase.job.At()}
  }

  function Queued(queue: seq<Job>): multiset<Key> {
    if queue == [] then multiset{} else multiset{queue[0].At()} + Queued(queue[1..])
  }

  function HeldBy(workers: seq<Phase>): multiset<Key> {
    if workers == [] then multiset{} else Held(workers[0]) + HeldBy(workers[1..])
  }

  function Keys(p: int, accounts: seq<int>): multiset<Key> {
    if accounts == [] then multiset{} else multiset{Key(p, accounts[0])} + Keys(p, accounts[1..])
  }

  function ToPush(scheduler: Scheduler): multiset<Key> {
    if scheduler.Pushing? then Keys(scheduler.post, scheduler.accounts) else multiset{}
  }

  function ToPushBy(schedulers: seq<Scheduler>): multiset<Key> {
    if schedulers == [] then multiset{} else ToPush(schedulers[0]) + ToPushBy(schedulers[1..])
  }

  /** Every job that can still run: to be pushed, queued, or in a worker's hands. */
  function Live(s: State): multiset<Key> {
    Queued(s.queue) + HeldBy(s.workers) + ToPushBy(s.schedulers)
  }

  /** No job of the post is left anywhere. */
  ghost predicate Quiet(s: State, p: int) {
    forall k :: k in Live(s) ==> k.post != p
  }

  function LostKeys(p: int, accounts: seq<int>): set<Key> {
    set a | a in accounts :: Key(p, a)
  }

  // ---------- steps ----------

  datatype Step =
    // a worker
    | Pop(w: nat)
    | ReadAccount(w: nat)
    | ReadService(w: nat)
    | ReadText(w: nat)
    | Call(w: nat, outcome: Outcome)
    | WriteRow(w: nat)
    | MarkRow(w: nat)
    | Count(w: nat, at: int)
    | Commit(w: nat)
    | Requeue(w: nat, delivered: bool)
    | Fault(w: nat)                    // a statement or the commit fails; nothing was committed
    | Crash(w: nat)                    // the process dies, or the popped job never arrives
    // a scheduler
    | Scan(c: nat, found: seq<int>)
    | ClaimNext(c: nat)
    | EndScan(c: nat)
    | Push(c: nat)
    | PushFails(c: nat, delivered: bool)
    | Stop(c: nat)                     // the scan ends early, by an error or a crash
    // the API and the clock
    | AddPost(form: PostForm)
    | EditPost(p: int, form: PostForm)
    | RemovePost(p: int)
    | EditCatalog(op: CatalogOp)
    | RemoveAccount(a: int)
    | Tick

  /** A list the scan query may return (cmd/scheduler/main.go:94-104): at most 200 due
      posts, earliest first; a due post is left out only by 200 others no later than it. */
  ghost predicate IsScan(posts: map<int, Post>, now: int, found: seq<int>) {
    && |found| <= SCAN_LIMIT
    && Distinct(found)
    && (forall i :: 0 <= i < |found| ==> found[i] in posts && posts[found[i]].Due(now))
    && (forall i, j :: 0 <= i < j < |found| ==>
          posts[found[i]].scheduledAt.value <= posts[found[j]].scheduledAt.value)
    && (forall p :: p in posts && posts[p].Due(now) && p !in found ==>
          |found| == SCAN_LIMIT && forall i :: 0 <= i < |found| ==>
            posts[found[i]].scheduledAt.value <= posts[p].scheduledAt.value)
  }

  /** Permanent errors, and the third failure, are recorded instead of retried. */
  predicate GivesUp(job: Job, error: Error) {
    Permanent(error) || job.attempt >= MAX_ATTEMPTS
  }

  /** The connector's own checks, before anything is sent. */
  function Prepared(phase: Phase): Result<Request, Error>
    requires phase.TextRead?
  {
    Dispatch(Index(DEFAULT_CONNECTORS), phase.account, phase.config, phase.text)
  }

  predicate Expected(phase: Phase, outcome: Outcome)
    requires phase.TextRead?
  {
    match Prepared(phase)
    case Ok(request) => Possible(request, outcome)
    case Err(error) => outcome == Rejected(error)
  }

  ghost predicate Enabled(s: State, step: Step) {
    match step
    case Pop(w) => w < |s.workers| && s.workers[w].Idle? && s.queue != []
    case ReadAccount(w) => w < |s.workers| && s.workers[w].Popped?
    case ReadService(w) => w < |s.workers| && s.workers[w].AccountRead?
    case ReadText(w) => w < |s.workers| && s.workers[w].ServiceRead?
    case Call(w, outcome) => w < |s.workers| && s.workers[w].TextRead? && Expected(s.workers[w], outcome)
    case WriteRow(w) => w < |s.workers| && s.workers[w].Sent?
    case MarkRow(w) => w < |s.workers| && s.workers[w].Failing? && GivesUp(s.workers[w].job, s.workers[w].error)
    case Count(w, at) => w < |s.workers| && s.workers[w].Wrote? && at <= s.now
    case Commit(w) => w < |s.workers| && s.workers[w].Counted?
    case Requeue(w, _) => w < |s.workers| && s.workers[w].Failing? && !GivesUp(s.workers[w].job, s.workers[w].error)
    case Fault(w) => w < |s.workers| && !s.workers[w].Idle? && !s.workers[w].Failing?
    case Crash(w) => w < |s.workers| && !s.workers[w].Idle?
    case Scan(c, found) => c < |s.schedulers| && s.schedulers[c].Resting? && IsScan(s.db.posts, s.now, found)
    case ClaimNext(c) => c < |s.schedulers| && s.schedulers[c].Scanning? && s.schedulers[c].todo != []
    case EndScan(c) => c < |s.schedulers| && s.schedulers[c] == Scanning([])
    case Push(c) => c < |s.schedulers| && s.schedulers[c].Pushing? && s.schedulers[c].accounts != []
    case PushFails(c, _) => c < |s.schedulers| && s.schedulers[c].Pushing? && s.schedulers[c].accounts != []
    case Stop(c) => c < |s.schedulers| && !s.schedulers[c].Resting?
    case AddPost(form) => CreatePost(s.db, form).Ok?
    case EditPost(p, form) => UpdatePost(s.db, p, form).Ok? && Quiet(s, p)
    case RemovePost(p) => DeletePost(s.db, p).Ok?
    case EditCatalog(op) => !op.DropAccount? && !op.Deauthorize?
    case RemoveAccount(a) => a in s.db.catalog.accounts
    case Tick => true
  }

  /** Worker w goes on to another phase of the same job. */
  function Moved(s: State, w: nat, phase: Phase, t: Tally): State
    requires w < |s.workers| && !s.workers[w].Idle?
  {
    s.(workers := s.workers[w := phase], past := s.past.Record(s.workers[w].job.At(), t))
  }

  /** Worker w is done with its job without a committed result. */
  function Dropped(s: State, w: nat, lost: bool, t: Tally): State
    requires w < |s.workers| && !s.workers[w].Idle?
  {
    var k := s.workers[w].job.At();
    s.(workers := s.workers[w := Idle],
       past := s.past.Record(k, t).(lost := if lost then s.past.lost + {k} else s.past.lost))
  }

  function Tallied(s: State, w: nat): Tally
    requires w < |s.workers| && !s.workers[w].Idle?
  {
    s.past.Of(s.workers[w].job.At())
  }

  /** The attempt has not called the provider yet. */
  predicate BeforeCall(phase: Phase) {
    phase.Popped? || phase.AccountRead? || phase.ServiceRead? || phase.TextRead?
  }

  /** The provider accepted this attempt and the database does not show it yet. */
  predicate Unsettled(phase: Phase) {
    phase.Sent? || ((phase.Wrote? || phase.Counted?) && phase.change.Succeeded?)
  }

  predicate Busy(s: State, w: nat) {
    w < |s.workers| && !s.workers[w].Idle?
  }

  function PopStep(s: State, w: nat): State
    requires w < |s.workers| && s.queue != []
  {
    var job := s.queue[|s.queue| - 1];
    var t := s.past.Of(job.At());
    s.(queue := s.queue[..|s.queue| - 1],
       workers := s.workers[w := Popped(job)],
       past := s.past.Record(job.At(), t.(pops := t.pops + 1)))
  }

  function ReadAccountStep(s: State, w: nat): State
    requires Busy(s, w)
  {
    var job := s.workers[w].job;
    var account := FetchAccount(s.db, job.At());
    if account.None? then Dropped(s, w, false, Tallied(s, w))
    else if !account.value.authorized then Moved(s, w, Failing(job, Unauthorized), Tallied(s, w))
    else Moved(s, w, AccountRead(job, account.value), Tallied(s, w))
  }

  function ReadServiceStep(s: State, w: nat): State
    requires Busy(s, w) && s.workers[w].AccountRead?
  {
    var job, account := s.workers[w].job, s.workers[w].account;
    match FetchServiceConfiguration(s.db.catalog, account.provider)
    case Err(error) => Moved(s, w, Failing(job, error), Tallied(s, w))
    case Ok(config) => Moved(s, w, ServiceRead(job, account, config), Tallied(s, w))
  }

  function ReadTextStep(s: State, w: nat): State
    requires Busy(s, w) && s.workers[w].ServiceRead?
  {
    var phase := s.workers[w];
    match PublishText(s.db.versions, s.db.nextVersion, phase.job.post, phase.job.account)
    case Err(error) => Moved(s, w, Failing(phase.job, error), Tallied(s, w))
    case Ok(text) => Moved(s, w, TextRead(phase.job, phase.account, phase.config, text), Tallied(s, w))
  }

  function Answered(phase: Phase, outcome: Outcome): Phase
    requires phase.TextRead?
  {
    if Prepared(phase).Err? then Failing(phase.job, Prepared(phase).error)
    else match outcome
         case Accepted(id) => Sent(phase.job, id)
         case Rejected(error) => Failing(phase.job, error)
         case Unheard => Failing(phase.job, Transient)
  }

  function Called(phase: Phase, outcome: Outcome, t: Tally): Tally
    requires phase.TextRead?
  {
    if Prepared(phase).Err? then t
    else t.(calls := t.calls + 1,
            accepted := if outcome.Rejected? then t.accepted else t.accepted + 1,
            unrecorded := if outcome.Unheard? then t.unrecorded + 1 else t.unrecorded)
  }

  function CallStep(s: State, w: nat, outcome: Outcome): State
    requires Busy(s, w) && s.workers[w].TextRead?
  {
    Moved(s, w, Answered(s.workers[w], outcome), Called(s.workers[w], outcome, Tallied(s, w)))
  }

  function WriteRowStep(s: State, w: nat): State
    requires Busy(s, w) && s.workers[w].Sent?
  {
    var phase, t := s.workers[w], Tallied(s, w);
    if HasRow(s.db.rows, phase.job.At()) then Moved(s, w, Wrote(phase.job, Succeeded(phase.id)), t)
    else Dropped(s, w, false, t.(unrecorded := t.unrecorded + 1))
  }

  function MarkRowStep(s: State, w: nat): State
    requires Busy(s, w) && s.workers[w].Failing?
  {
    Moved(s, w, Wrote(s.workers[w].job, Errored(s.workers[w].error)), Tallied(s, w))
  }

  /** The counting phase: the rows seen are the committed ones with the own change. */
  function CountedPhase(s: State, phase: Phase, at: int): Phase
    requires phase.Wrote?
  {
    var k := phase.job.At();
    Counted(phase.job, phase.change, Judge(Changed(s.db.rows, k, phase.change), k.post), at,
            if k.post in s.past.claims then s.past.claims[k.post].changes else 0,
            if k.post in s.past.claims then s.past.claims[k.post].gone else {})
  }

  function CountStep(s: State, w: nat, at: int): State
    requires Busy(s, w) && s.workers[w].Wrote?
  {
    Moved(s, w, CountedPhase(s, s.workers[w], at), Tallied(s, w))
  }

  function AfterCommit(claim: Claim, phase: Phase): Claim
    requires phase.Counted?
  {
    var undecided := phase.verdict.Unfinished?;
    claim.(changes := claim.changes + 1,
           late := if claim.finals > 0 then claim.late else undecided && phase.seen != claim.changes,
           finals := if undecided then claim.finals else claim.finals + 1,
           failed := if phase.change.Errored? then claim.failed + {phase.job.account} else claim.failed,
           goneThen := if undecided then claim.goneThen else phase.gone)
  }

  function CommitStep(s: State, w: nat): State
    requires Busy(s, w) && s.workers[w].Counted?
  {
    var phase := s.workers[w];
    var p, claims := phase.job.post, s.past.claims;
    s.(db := Settled(s.db, phase.job.At(), phase.change, phase.verdict, phase.at),
       workers := s.workers[w := Idle],
       past := s.past.(claims := if p in claims then claims[p := AfterCommit(claims[p], phase)] else claims))
  }

  function RequeueStep(s: State, w: nat, delivered: bool): State
    requires Busy(s, w)
  {
    var job := s.workers[w].job;
    if delivered then s.(queue := [job.(attempt := job.attempt + 1)] + s.queue, workers := s.workers[w := Idle])
    else Dropped(s, w, true, Tallied(s, w))
  }

  /** The transaction that records an error. */
  predicate Marking(phase: Phase) {
    (phase.Wrote? || phase.Counted?) && phase.change.Errored?
  }

  function Faulted(phase: Phase, t: Tally): Tally {
    if Unsettled(phase) then t.(unrecorded := t.unrecorded + 1) else t
  }

  /** When markAccountJobError fails the job is dropped; processPublishJob returns an error. */
  function FaultStep(s: State, w: nat): State
    requires Busy(s, w)
  {
    if Marking(s.workers[w]) then Dropped(s, w, true, Tallied(s, w))
    else Moved(s, w, Failing(s.workers[w].job, Transient), Faulted(s.workers[w], Tallied(s, w)))
  }

  /** A post without accounts goes straight to failed; any other starts running. */
  function ClaimStep(s: State, c: nat): State
    requires c < |s.schedulers| && s.schedulers[c].Scanning? && s.schedulers[c].todo != []
  {
    var p, rest := s.schedulers[c].todo[0], s.schedulers[c].todo[1..];
    if p !in s.db.posts || !s.db.posts[p].Claimable() then
      s.(schedulers := s.schedulers[c := Scanning(rest)])
    else if AccountsOf(s.db.rows, s.db.nextRow, p) == [] then
      s.(db := s.db.(posts := s.db.posts[p := s.db.posts[p].(status := FAILED, scheduleStatus := COMPLETE)]),
         schedulers := s.schedulers[c := Scanning(rest)])
    else Running(s, c, p, AccountsOf(s.db.rows, s.db.nextRow, p), rest)
  }

  function Running(s: State, c: nat, p: int, accounts: seq<int>, rest: seq<int>): State
    requires c < |s.schedulers| && p in s.db.posts
  {
    var post, past := s.db.posts[p], s.past.Forget(p);
    s.(db := s.db.(posts := s.db.posts[p := post.(scheduleStatus := RUNNING)]),
       schedulers := s.schedulers[c := Pushing(p, accounts, rest)],
       past := past.(claims := past.claims[p := NewClaim(accounts, post.publishedAt)]))
  }

  function Advanced(scheduler: Scheduler): Scheduler
    requires scheduler.Pushing? && scheduler.accounts != []
  {
    if |scheduler.accounts| == 1 then Scanning(scheduler.todo)
    else scheduler.(accounts := scheduler.accounts[1..])
  }

  function PushStep(s: State, c: nat): State
    requires c < |s.schedulers| && s.schedulers[c].Pushing? && s.schedulers[c].accounts != []
  {
    var scheduler := s.schedulers[c];
    s.(queue := [Job(scheduler.post, scheduler.accounts[0], 1)] + s.queue,
       schedulers := s.schedulers[c := Advanced(scheduler)])
  }

  function StopStep(s: State, c: nat): State
    requires c < |s.schedulers|
  {
    var scheduler := s.schedulers[c];
    s.(schedulers := s.schedulers[c := Resting],
       past := s.past.(lost := s.past.lost + if scheduler.Pushing? then LostKeys(scheduler.post, scheduler.accounts) else {}))
  }

  /** A failed LPUSH ends the scan and loses the rest; the job itself may have arrived. */
  function PushFailsStep(s: State, c: nat, delivered: bool): State
    requires c < |s.schedulers| && s.schedulers[c].Pushing? && s.schedulers[c].accounts != []
  {
    if delivered then StopStep(PushStep(s, c), c) else StopStep(s, c)
  }

  /** The row of account a is deleted; when it was open, nobody looks at what remains. */
  function CutClaim(claim: Claim, rows: map<int, Row>, p: int, a: int): Claim {
    if !HasRow(rows, Key(p, a)) then claim
    else if !HasOpenRow(rows, Key(p, a)) then claim.(gone := claim.gone + {a})
    else claim.(gone := claim.gone + {a}, changes := claim.changes + 1, late := true)
  }

  function CutClaims(s: State, a: int): map<int, Claim> {
    map p | p in s.past.claims :: CutClaim(s.past.claims[p], s.db.rows, p, a)
  }

  function RemoveAccountStep(s: State, a: int): State {
    s.(db := DeleteAccount(s.db, a), past := s.past.(claims := CutClaims(s, a)))
  }

  /** Writes of the API, and the clock. */
  function NextOfApi(s: State, step: Step): State
    requires !OfWorker(step) && !OfScheduler(step) && Enabled(s, step)
  {
    match step
    case AddPost(form) => s.(db := CreatePost(s.db, form).value, past := s.past.Forget(s.db.nextPost))
    case EditPost(p, form) => s.(db := UpdatePost(s.db, p, form).value, past := s.past.Forget(p))
    case RemovePost(p) => s.(db := DeletePost(s.db, p).value)
    case EditCatalog(op) => s.(db := s.db.(catalog := Perform(s.db.catalog, op)))
    case RemoveAccount(a) => RemoveAccountStep(s, a)
    case Tick => s.(now := s.now + 1)
  }

  function Next(s: State, step: Step): State
    requires Enabled(s, step)
  {
    match step
    case Pop(w) => PopStep(s, w)
    case ReadAccount(w) => ReadAccountStep(s, w)
    case ReadService(w) => ReadServiceStep(s, w)
    case ReadText(w) => ReadTextStep(s, w)
    case Call(w, outcome) => CallStep(s, w, outcome)
    case WriteRow(w) => WriteRowStep(s, w)
    case MarkRow(w) => MarkRowStep(s, w)
    case Count(w, at) => CountStep(s, w, at)
    case Commit(w) => CommitStep(s, w)
    case Requeue(w, delivered) => RequeueStep(s, w, delivered)
    case Fault(w) => FaultStep(s, w)
    case Crash(w) => Dropped(s, w, true, Tallied(s, w))
    case Scan(c, found) => s.(schedulers := s.schedulers[c := Scanning(found)])
    case ClaimNext(c) => ClaimStep(s, c)
    case EndScan(c) => s.(schedulers := s.schedulers[c := Resting])
    case Push(c) => PushStep(s, c)
    case PushFails(c, delivered) => PushFailsStep(s, c, delivered)
    case Stop(c) => StopStep(s, c)
    case _ => NextOfApi(s, step)
  }

  // ---------- who takes a step ----------

  predicate OfWorker(step: Step) {
    step.Pop? || step.ReadAccount? || step.ReadService? || step.ReadText? || step.Call? || step.WriteRow? ||
    step.MarkRow? || step.Count? || step.Commit? || step.Requeue? || step.Fault? || step.Crash?
  }

  predicate OfScheduler(step: Step) {
    step.Scan? || step.ClaimNext? || step.EndScan? || step.Push? || step.PushFails? || step.Stop?
  }

  // ---------- runs ----------

  ghost predicate Runs(s: State, steps: seq<Step>)
    decreases |steps|
  {
    steps == [] || (Enabled(s, steps[0]) && Runs(Next(s, steps[0]), steps[1..]))
  }

  ghost function After(s: State, steps: seq<Step>): State
    requires Runs(s, steps)
    decreases |steps|
  {
    if steps == [] then s else After(Next(s, steps[0]), steps[1..])
  }

  /** Empty tables, an empty queue, every process at rest. */
  ghost predicate Initial(s: State) {
    && s.db == Db(map[], 1, map[], 1, map[], 1, EMPTY)
    && s.queue == []
    && (forall w :: 0 <= w < |s.workers| ==> s.workers[w].Idle?)
    && (forall c :: 0 <= c < |s.schedulers| ==> s.schedulers[c].Resting?)
    && s.past == History(map[], map[], {})
  }
}
