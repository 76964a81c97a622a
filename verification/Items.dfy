/** One queue row, and what each locked section of the engine does to it
    (internal/sync/item.go, engine.go, transfer.go). */
module Items {
  import opened Wrappers
  import opened Decimal

  datatype RowState = Pending | Running | Complete | Failed | Cancelled

  datatype Stage = Idle | Downloading | WaitingUpload | Uploading | Finishing

  /** uploadJob is the drive's job this row still owns, if any. */
  datatype Row = Row(
    jobID: string,
    remotePath: string,
    sha1: string,
    targetDir: string,
    size: nat,
    state: RowState,
    stage: Stage,
    attempts: nat,
    notBefore: int,
    downloaded: int,
    uploaded: int,
    uploadJob: Option<nat>,
    deleteAfter: bool,
    finishedAt: int)

  /** The lifecycle record of a claimed transfer; who names its worker. */
  datatype Run = Run(who: nat, cancelRequested: bool)

  /** Everything the engine keeps in memory about one row. deleting is a refcount. */
  datatype Mem = Mem(row: Row, queued: bool, run: Option<Run>, cancelling: bool, deleting: nat)

  predicate Finished(row: Row) {
    row.state.Complete? || row.state.Failed? || row.state.Cancelled?
  }

  predicate Active(row: Row) {
    row.state.Pending? || row.state.Running?
  }

  predicate Stopped(m: Mem) {
    (m.run.Some? && m.run.value.cancelRequested) || m.cancelling
  }

  // ----- claiming and working

  predicate CanClaim(m: Mem) {
    m.queued && m.row.state.Pending? && m.run.None? && m.deleting == 0
  }

  function Claim(m: Mem, who: nat): Mem {
    m.(row := m.row.(state := Running, stage := Idle, attempts := m.row.attempts + 1, notBefore := 0),
       run := Some(Run(who, false)))
  }

  /** watchItem: a cancellation that came first is carried over. */
  function Watch(m: Mem): Mem
    requires m.run.Some?
  {
    if Stopped(m) then m.(run := Some(m.run.value.(cancelRequested := true)), cancelling := true) else m
  }

  function WithStage(m: Mem, stage: Stage): Mem {
    m.(row := m.row.(stage := stage))
  }

  function WithJob(m: Mem, job: Option<nat>): Mem {
    m.(row := m.row.(uploadJob := job))
  }

  /** The first locked section of abort and the end of upload: whoever still finds
      the job on the row takes it off. */
  function TakeJob(m: Mem, job: nat): Mem {
    if m.row.uploadJob == Some(job) then WithJob(m, None) else m
  }

  predicate Refuses(m: Mem) {
    Stopped(m) || m.row.state.Cancelled?
  }

  function CompleteStart(m: Mem, now: int): Mem {
    if Refuses(m) then m
    else m.(row := m.row.(state := Complete, stage := Idle, finishedAt := now), deleting := m.deleting + 1)
  }

  function CompleteRollback(m: Mem, state: RowState, stage: Stage, finishedAt: int): Mem {
    m.(row := m.row.(state := state, stage := stage, finishedAt := finishedAt))
  }

  function Marked(m: Mem): Mem {
    m.(deleting := m.deleting + 1)
  }

  function Unmarked(m: Mem): Mem {
    m.(deleting := if m.deleting == 0 then 0 else m.deleting - 1)
  }

  function Requeue(m: Mem, notBefore: int, charge: bool): Mem {
    if Refuses(m) then m
    else
      m.(row := m.row.(state := Pending, stage := Idle, uploaded := 0, uploadJob := None, finishedAt := 0,
                       notBefore := notBefore,
                       attempts := if !charge && m.row.attempts > 0 then m.row.attempts - 1 else m.row.attempts))
  }

  function Fail(m: Mem, now: int): Mem {
    if Refuses(m) then m
    else m.(row := m.row.(state := Failed, stage := Idle, finishedAt := now, notBefore := 0))
  }

  function Release(m: Mem, who: nat): Mem {
    if m.run.Some? && m.run.value.who == who then m.(run := None, cancelling := false) else m
  }

  // ----- operator actions and cleaners

  predicate CanCancel(m: Mem) {
    m.queued && !m.row.state.Complete? && !(m.run.None? && m.deleting > 0)
  }

  function Cancel(m: Mem, now: int): Mem {
    m.(row := m.row.(state := Cancelled, stage := Idle, notBefore := 0, finishedAt := now),
       run := if m.run.Some? then Some(m.run.value.(cancelRequested := true)) else None,
       cancelling := m.run.Some?,
       deleting := m.deleting + 1)
  }

  predicate CanRetry(m: Mem) {
    m.queued && !m.row.state.Running? && !m.row.state.Complete? && m.run.None? && m.deleting == 0
  }

  function ResetForRetry(m: Mem): Mem {
    m.(cancelling := false,
       row := m.row.(state := Pending, stage := Idle, downloaded := 0, uploaded := 0, uploadJob := None,
                     finishedAt := 0, attempts := 0, notBefore := 0))
  }

  /** The end of a retry that had an old upload job to abort first. */
  function RetryOutcome(m: Mem, job: nat, aborted: bool): Mem {
    Unmarked(
      if !aborted then if m.row.uploadJob.None? then WithJob(m, Some(job)) else m
      else if m.run.None? then ResetForRetry(m) else m)
  }

  predicate CanDeleteStaged(m: Mem) {
    m.queued && !m.row.state.Running? && m.run.None? && m.deleting == 0
  }

  function NothingDownloaded(m: Mem): Mem {
    m.(row := m.row.(downloaded := 0))
  }

  predicate CanClear(m: Mem) {
    m.queued && Finished(m.row) && m.run.None? && m.deleting == 0
  }

  predicate CanTrim(m: Mem) {
    CanClear(m) && !m.row.deleteAfter
  }

  predicate CanCleanUp(m: Mem) {
    m.queued && m.row.state.Complete? && m.row.deleteAfter && m.deleting == 0
  }

  predicate CanDrop(m: Mem) {
    m.queued && !m.row.state.Running? && !m.row.state.Complete?
  }

  function Dropped(m: Mem): Mem {
    m.(queued := false)
  }

  function OriginalGone(m: Mem): Mem {
    m.(row := m.row.(deleteAfter := false))
  }

  // ----- restart

  /** What Load makes of a stored row. */
  function LoadRow(row: Row, now: int): Row {
    if !row.state.Running? then row
    else if row.stage.Finishing? then row.(state := Complete, stage := Idle, finishedAt := now, uploaded := row.size)
    else
      row.(state := Pending, stage := Idle, uploaded := 0, uploadJob := None, notBefore := 0,
           attempts := if row.attempts > 0 then row.attempts - 1 else 0)
  }

  // ----- identity across scans

  function Key(jobID: string, remotePath: string, sha1: string, size: int): string {
    jobID + "\0" + remotePath + "\0" + sha1 + "\0" + FormatInt(size)
  }

  function KeyOf(row: Row): string {
    Key(row.jobID, row.remotePath, row.sha1, row.size)
  }

  lemma NulPosition(a: string, x: string)
    ensures (a + "\0" + x)[|a|] == '\0'
    ensures '\0' !in a ==> forall k :: 0 <= k < |a| ==> (a + "\0" + x)[k] != '\0'
    ensures '\0' !in x ==> forall k :: |a| < k < |a + "\0" + x| ==> (a + "\0" + x)[k] != '\0'
  {
    var s := a + "\0" + x;
    assert forall k :: 0 <= k < |a| ==> s[k] == a[k];
    assert forall k :: |a| < k < |s| ==> s[k] == x[k - |a| - 1];
  }

  /** A string splits at its first, and at its last, NUL in one way only. */
  lemma NulSplits(a: string, b: string, x: string, y: string)
    requires ('\0' !in a && '\0' !in b) || ('\0' !in x && '\0' !in y)
    requires a + "\0" + x == b + "\0" + y
    ensures a == b && x == y
  {
    var s, t := a + "\0" + x, b + "\0" + y;
    NulPosition(a, x);
    NulPosition(b, y);
    assert |a| == |b|;
    assert a == s[..|a|] && b == t[..|b|];
    assert x == s[|a| + 1..] && y == t[|b| + 1..];
  }

  /** The key tells rows apart whenever job IDs and hashes hold no NUL; the path
      may hold anything. */
  lemma KeyIsInjective(j: string, p: string, h: string, n: int, j': string, p': string, h': string, n': int)
    requires '\0' !in j && '\0' !in j' && '\0' !in h && '\0' !in h'
    requires Key(j, p, h, n) == Key(j', p', h', n')
    ensures j == j' && p == p' && h == h' && n == n'
  {
    FormatIntHasNoNul(n);
    FormatIntHasNoNul(n');
    NulSplits(j + "\0" + p + "\0" + h, j' + "\0" + p' + "\0" + h', FormatInt(n), FormatInt(n'));
    FormatIntInjective(n, n');
    NulSplits(j + "\0" + p, j' + "\0" + p', h, h');
    NulSplits(j, j', p, p');
  }

  /** Two rows are the same file, to a scan, exactly if they agree on job, path, hash and
      size; where they go, and all that happened to them, is no matter. */
  lemma SameFileExactly(a: Row, b: Row)
    requires '\0' !in a.jobID && '\0' !in b.jobID && '\0' !in a.sha1 && '\0' !in b.sha1
    ensures KeyOf(a) == KeyOf(b) <==>
      a.jobID == b.jobID && a.remotePath == b.remotePath && a.sha1 == b.sha1 && a.size == b.size
  {
    if KeyOf(a) == KeyOf(b) {
      KeyIsInjective(a.jobID, a.remotePath, a.sha1, a.size, b.jobID, b.remotePath, b.sha1, b.size);
    }
  }

  /** Without that the key is ambiguous. */
  lemma KeyNeedsNoNul()
    ensures exists j: string, p: string, j': string, p': string :: j != j' && Key(j, p, "", 0) == Key(j', p', "", 0)
  {
    var j, p, j', p' := "a", "b\0c", "a\0b", "c";
    assert j + "\0" + p == j' + "\0" + p';
    assert j != j' && Key(j, p, "", 0) == Key(j', p', "", 0);
  }
}
