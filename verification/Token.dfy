/** Credentials, their revision, and the refresh that at most one request at a time
    performs (internal/aliyunpan/source_client.go, source_login.go, credentials.go).
    The refresh lock and the credentials lock are separate: a refresh holds the first
    across its call to the token service and takes the second for each look or write. */
module Token {
  import opened Wrappers

  datatype Credentials = Credentials(user: string, ticket: string, access: string, refresh: string)

  const NOBODY: Credentials := Credentials("", "", "", "")

  /** One call under way. Setting is setCredentials, Clearing a logout, Identifying
      updateAccountIdentity, Refreshing and Asking refreshAccessToken before and after its
      look at the credentials, Confirming ConfirmLogin's write of the account it read,
      which takes no refresh lock. observed is the revision whose token the request saw
      refused, base the one the refresh found under the lock. */
  datatype Task =
    | Setting(next: Credentials)
    | Clearing
    | Identifying(user: string)
    | Refreshing(observed: nat)
    | Asking(observed: nat, base: nat, read: Credentials)
    | Confirming(user: string)
    | Leaving
    | Over

  /** A refreshed token that was installed: which revision its request had seen refused,
      over which revision, what the refresh had read when it asked for it, and the
      credentials just before and after. */
  datatype Install = Install(observed: nat, base: nat, asked: Credentials, before: Credentials, after: Credentials)

  /** holder is the task that holds the refresh lock. */
  datatype Store = Store(credentials: Credentials, revision: nat, holder: Option<nat>, tasks: seq<Task>, installs: seq<Install>)

  datatype Step =
    | Call(task: Task)
    | Lock(k: nat)
    | Act(k: nat)
    | Answer(k: nat, access: string, refresh: string)
    | Fail(k: nat)
    | Confirm(k: nat)
    | Unlock(k: nat)

  datatype Verdict = AlreadyRefreshed | NotLoggedIn | AskService

  /** What refreshAccessToken decides before it makes a call. */
  function Decide(credentials: Credentials, revision: nat, observed: nat): Verdict {
    if revision != observed && credentials.access != "" then AlreadyRefreshed
    else if credentials.ticket == "" || credentials.user == "" then NotLoggedIn
    else AskService
  }

  function Identified(credentials: Credentials, user: string): Credentials {
    if user != "" then credentials.(user := user) else credentials
  }

  function Refreshed(credentials: Credentials, access: string, refresh: string): Credentials {
    credentials.(access := access, refresh := if refresh != "" then refresh else credentials.refresh)
  }

  predicate WantsLock(task: Task) {
    task.Setting? || task.Clearing? || task.Identifying? || task.Refreshing?
  }

  predicate Enabled(s: Store, step: Step) {
    match step
    case Call(task) => WantsLock(task) || task.Confirming?
    case Lock(k) => k < |s.tasks| && WantsLock(s.tasks[k]) && s.holder.None?
    case Act(k) => k < |s.tasks| && WantsLock(s.tasks[k]) && s.holder == Some(k)
    case Answer(k, access, _) => k < |s.tasks| && s.tasks[k].Asking? && access != ""
    case Fail(k) => k < |s.tasks| && s.tasks[k].Asking?
    case Confirm(k) => k < |s.tasks| && s.tasks[k].Confirming?
    case Unlock(k) => k < |s.tasks| && s.tasks[k].Leaving?
  }

  function Goes(s: Store, k: nat, task: Task): Store
    requires k < |s.tasks|
  {
    s.(tasks := s.tasks[k := task])
  }

  function ActApply(s: Store, k: nat): Store
    requires k < |s.tasks| && WantsLock(s.tasks[k])
  {
    match s.tasks[k]
    case Setting(next) => Goes(s, k, Leaving).(credentials := next, revision := s.revision + 1)
    case Clearing => Goes(s, k, Leaving).(credentials := NOBODY, revision := s.revision + 1)
    case Identifying(user) => Goes(s, k, Leaving).(credentials := Identified(s.credentials, user))
    case Refreshing(observed) =>
      Goes(s, k, if Decide(s.credentials, s.revision, observed).AskService? then Asking(observed, s.revision, s.credentials) else Leaving)
  }

  function Apply(s: Store, step: Step): Store
    requires Enabled(s, step)
  {
    match step
    case Call(task) => s.(tasks := s.tasks + [task])
    case Lock(k) => s.(holder := Some(k))
    case Act(k) => ActApply(s, k)
    case Answer(k, access, refresh) =>
      var after := Refreshed(s.credentials, access, refresh);
      Goes(s, k, Leaving).(credentials := after, revision := s.revision + 1,
        installs := s.installs + [Install(s.tasks[k].observed, s.tasks[k].base, s.tasks[k].read, s.credentials, after)])
    case Fail(k) => Goes(s, k, Leaving)
    case Confirm(k) => Goes(s, k, Over).(credentials := s.credentials.(user := s.tasks[k].user))
    case Unlock(k) => Goes(s, k, Over).(holder := None)
  }

  // ----- what the refresh lock protects

  /** The same ticket and tokens, whoever they are said to belong to. */
  predicate SameTokens(a: Credentials, b: Credentials) {
    a.ticket == b.ticket && a.access == b.access && a.refresh == b.refresh
  }

  /** A refresh that may ask: the refused token is still the current one, or there is
      none, and there is a login to refresh it with. */
  predicate Warranted(observed: nat, base: nat, read: Credentials) {
    (observed == base || read.access == "") && read.ticket != "" && read.user != ""
  }

  predicate TaskOk(s: Store, k: nat)
    requires k < |s.tasks|
  {
    && (s.tasks[k].Asking? || s.tasks[k].Leaving? ==> s.holder == Some(k))
    && (s.tasks[k].Asking? ==>
          && s.tasks[k].base == s.revision && SameTokens(s.tasks[k].read, s.credentials)
          && Warranted(s.tasks[k].observed, s.tasks[k].base, s.tasks[k].read))
  }

  predicate InstallOk(s: Store, i: Install) {
    && i.base < s.revision && Warranted(i.observed, i.base, i.asked) && i.after.access != ""
    && SameTokens(i.before, i.asked) && i.after.ticket == i.asked.ticket && i.after.user == i.before.user
  }

  ghost predicate Inv(s: Store) {
    && (forall k :: 0 <= k < |s.tasks| ==> TaskOk(s, k))
    && (forall i :: 0 <= i < |s.installs| ==> InstallOk(s, s.installs[i]))
    && (forall i, j :: 0 <= i < j < |s.installs| ==> s.installs[i].base < s.installs[j].base)
  }

  lemma StepKeepsInv(s: Store, step: Step)
    requires Inv(s) && Enabled(s, step)
    ensures Inv(Apply(s, step))
  {
    var t := Apply(s, step);
    if !step.Call? && !step.Lock? { assert TaskOk(s, step.k); }
    forall k | 0 <= k < |t.tasks| ensures TaskOk(t, k) {
      if k < |s.tasks| { assert TaskOk(s, k); }
    }
  }

  ghost predicate IsRun(states: seq<Store>, steps: seq<Step>) {
    && |states| == |steps| + 1
    && states[0].holder.None? && states[0].tasks == [] && states[0].installs == []
    && (forall i :: 0 <= i < |steps| ==> Enabled(states[i], steps[i]) && states[i + 1] == Apply(states[i], steps[i]))
  }

  lemma {:induction false} EveryRunKeepsInv(states: seq<Store>, steps: seq<Step>, i: nat)
    requires IsRun(states, steps) && i < |states|
    ensures Inv(states[i])
  {
    if i > 0 {
      EveryRunKeepsInv(states, steps, i - 1);
      StepKeepsInv(states[i - 1], steps[i - 1]);
    }
  }

  /** Single flight: over any run of concurrent requests, logins, logouts and identity
      updates, no two refreshes are installed over one token revision. */
  lemma OneRefreshPerRevision(states: seq<Store>, steps: seq<Step>, i: nat, a: nat, b: nat)
    requires IsRun(states, steps) && i < |states| && a < |states[i].installs| && b < |states[i].installs|
    ensures states[i].installs[a].base < states[i].revision
    ensures states[i].installs[a].base == states[i].installs[b].base ==> a == b
  {
    EveryRunKeepsInv(states, steps, i);
  }

  /** A token that was refused is refreshed once: a request that saw a revision refused
      installs over that very revision, or over a login without a token; so no two of the
      requests that saw the same one refused, and had a token, both install. */
  lemma OneRefreshPerRefusal(states: seq<Store>, steps: seq<Step>, i: nat, a: nat, b: nat)
    requires IsRun(states, steps) && i < |states| && a < |states[i].installs| && b < |states[i].installs|
    ensures var n := states[i].installs[a]; n.observed == n.base || n.asked.access == ""
    ensures var n, o := states[i].installs[a], states[i].installs[b];
      n.observed == o.observed && n.asked.access != "" && o.asked.access != "" ==> a == b
  {
    EveryRunKeepsInv(states, steps, i);
  }

  /** What a refresh that has the lock does: it asks the token service exactly if the token
      its request saw refused is still the current one, or there is none, and somebody is
      logged in. In any case the credentials stay as they are until an answer comes. */
  lemma RefreshAsksExactly(states: seq<Store>, steps: seq<Step>, i: nat)
    requires IsRun(states, steps) && i < |steps| && steps[i].Act?
    requires steps[i].k < |states[i].tasks| && states[i].tasks[steps[i].k].Refreshing?
    ensures var s, t, k := states[i], states[i + 1], steps[i].k; var observed := s.tasks[k].observed;
      && t.credentials == s.credentials && t.revision == s.revision && t.installs == s.installs
      && k < |t.tasks|
      && (t.tasks[k] == Leaving || t.tasks[k] == Asking(observed, s.revision, s.credentials))
      && (t.tasks[k].Leaving? <==>
            || (s.revision != observed && s.credentials.access != "")
            || s.credentials.ticket == "" || s.credentials.user == "")
  {
    assert Enabled(states[i], steps[i]);
  }

  /** What an answer leaves: the new tokens, under a new revision, with the ticket the
      refresh asked with; a refresh token only if one came. */
  lemma AnswerIsInstalled(states: seq<Store>, steps: seq<Step>, i: nat)
    requires IsRun(states, steps) && i < |steps| && steps[i].Answer?
    ensures var s, t, k := states[i], states[i + 1], steps[i].k;
      && k < |s.tasks| && s.tasks[k].Asking? && |t.installs| == |s.installs| + 1
      && t.credentials == t.installs[|s.installs|].after && t.revision == s.revision + 1
      && t.credentials.access == steps[i].access != ""
      && t.credentials.refresh == (if steps[i].refresh == "" then s.tasks[k].read.refresh else steps[i].refresh)
      && t.credentials.ticket == s.tasks[k].read.ticket && t.credentials.user == s.credentials.user
  {
    EveryRunKeepsInv(states, steps, i);
    assert Enabled(states[i], steps[i]) && TaskOk(states[i], steps[i].k);
  }

  /** The revision counts the tokens: it moves, by one, exactly with a login, a logout or an
      installed refresh, and only they change the tokens. */
  lemma RevisionCountsTokens(states: seq<Store>, steps: seq<Step>, i: nat)
    requires IsRun(states, steps) && i < |steps|
    ensures var s, t, step := states[i], states[i + 1], steps[i];
      var writes := step.Answer? || (step.Act? && step.k < |s.tasks| && (s.tasks[step.k].Setting? || s.tasks[step.k].Clearing?));
      && t.revision == s.revision + (if writes then 1 else 0)
      && (!writes ==> t.credentials.(user := s.credentials.user) == s.credentials)
      && (writes && step.Act? && s.tasks[step.k].Setting? ==> t.credentials == s.tasks[step.k].next)
      && (writes && step.Act? && s.tasks[step.k].Clearing? ==> t.credentials == Credentials("", "", "", ""))
      && (step.Act? && step.k < |s.tasks| && s.tasks[step.k].Identifying? && s.tasks[step.k].user != "" ==>
            t.credentials == s.credentials.(user := s.tasks[step.k].user))
  {
    assert Enabled(states[i], steps[i]);
  }

  /** No login is overwritten: what a refresh replaces are the very tokens it sent to be
      refreshed, its ticket is the one it asked with, and it leaves the user alone. */
  lemma LoginIsNeverOverwritten(states: seq<Store>, steps: seq<Step>, i: nat, a: nat)
    requires IsRun(states, steps) && i < |states| && a < |states[i].installs|
    ensures var n := states[i].installs[a];
      SameTokens(n.before, n.asked) && n.after.ticket == n.asked.ticket && n.after.user == n.before.user
  {
    EveryRunKeepsInv(states, steps, i);
  }

  // ----- whose token it is said to be

  /** The account that ConfirmLogin last wrote in steps from..to, if any. */
  function LastConfirmed(states: seq<Store>, steps: seq<Step>, from: nat, to: nat): Option<string>
    requires from <= to <= |steps| <= |states|
  {
    if from == to then None
    else if steps[to - 1].Confirm? && Enabled(states[to - 1], steps[to - 1]) then Some(states[to - 1].tasks[steps[to - 1].k].user)
    else LastConfirmed(states, steps, from, to - 1)
  }

  /** A refresh that has asked asks no second time. */
  lemma {:induction false} AskedOnce(states: seq<Store>, steps: seq<Step>, from: nat, to: nat, k: nat)
    requires IsRun(states, steps) && from <= to < |states| && k < |states[from].tasks| && states[from].tasks[k].Asking?
    ensures k < |states[to].tasks|
    ensures states[to].tasks[k] == states[from].tasks[k] || states[to].tasks[k].Leaving? || states[to].tasks[k].Over?
  {
    if from < to {
      AskedOnce(states, steps, from, to - 1, k);
      assert Enabled(states[to - 1], steps[to - 1]);
    }
  }

  /** While a refresh waits for its answer, the user changes by ConfirmLogin alone. */
  lemma {:induction false} UserWhileAsking(states: seq<Store>, steps: seq<Step>, from: nat, to: nat, k: nat)
    requires IsRun(states, steps) && from <= to < |states| && k < |states[from].tasks| && states[from].tasks[k].Asking?
    requires k < |states[to].tasks| && states[to].tasks[k].Asking?
    ensures states[to].tasks[k] == states[from].tasks[k]
    ensures var last := LastConfirmed(states, steps, from, to);
      states[to].credentials.user == if last.Some? then last.value else states[from].credentials.user
  {
    if from < to {
      AskedOnce(states, steps, from, to - 1, k);
      AskedOnce(states, steps, from, to, k);
      EveryRunKeepsInv(states, steps, to - 1);
      var s, step := states[to - 1], steps[to - 1];
      assert Enabled(s, step) && s.tasks[k].Asking? && TaskOk(s, k);
      if !step.Call? && !step.Lock? && step.k < |s.tasks| { assert TaskOk(s, step.k); }
      UserWhileAsking(states, steps, from, to - 1, k);
    }
  }

  /** A refresh asks at step from and is answered at step to. The user its token is filed
      under differs from the one it asked for exactly when ConfirmLogin has written another
      one in between. */
  lemma InstalledUserDiffersExactly(states: seq<Store>, steps: seq<Step>, from: nat, to: nat)
    requires IsRun(states, steps) && from < to < |steps|
    requires steps[from].Act? && steps[to].Answer? && steps[from].k == steps[to].k
    requires states[from + 1].tasks[steps[from].k].Asking?
    ensures var last := LastConfirmed(states, steps, from + 1, to); var log := states[to + 1].installs;
      && |log| > 0
      && (log[|log| - 1].after.user != log[|log| - 1].asked.user <==>
            last.Some? && last.value != states[from].credentials.user)
  {
    var k := steps[to].k;
    assert Enabled(states[from], steps[from]) && Enabled(states[to], steps[to]);
    UserWhileAsking(states, steps, from + 1, to, k);
  }

  // ----- it happens

  lemma Extend(states: seq<Store>, steps: seq<Step>, step: Step) returns (longer: seq<Store>, done: seq<Step>)
    requires IsRun(states, steps) && Enabled(states[|steps|], step)
    ensures done == steps + [step] && longer == states + [Apply(states[|steps|], step)] && IsRun(longer, done)
  {
    longer, done := states + [Apply(states[|steps|], step)], steps + [step];
  }

  /** One task called, run under the lock, and over. */
  lemma Runs(states: seq<Store>, steps: seq<Step>, task: Task) returns (longer: seq<Store>, done: seq<Step>)
    requires IsRun(states, steps) && states[|steps|].holder.None? && (task.Setting? || task.Identifying?)
    ensures IsRun(longer, done) && longer[0] == states[0] && longer[|done|].holder.None?
    ensures longer[|done|].credentials == if task.Setting? then task.next else Identified(states[|steps|].credentials, task.user)
    ensures longer[|done|].installs == states[|steps|].installs
  {
    var k := |states[|steps|].tasks|;
    longer, done := Extend(states, steps, Call(task));
    longer, done := Extend(longer, done, Lock(k));
    longer, done := Extend(longer, done, Act(k));
    longer, done := Extend(longer, done, Unlock(k));
  }

  /** A new login's tokens filed under the previous user when asked for: a late look-up for
      the old account writes its user back, a refresh reads it, and ConfirmLogin names the
      new user before the answer comes. */
  lemma TokenAskedForAnotherUser(s: Store, next: Credentials, oldUser: string, newUser: string)
      returns (states: seq<Store>, steps: seq<Step>)
    requires s.holder.None? && s.tasks == [] && s.installs == []
    requires next.user == "" && next.ticket != "" && oldUser != "" && newUser != oldUser
    ensures IsRun(states, steps) && states[0] == s
    ensures var log := states[|steps|].installs; |log| == 1 && log[0].asked.user == oldUser && log[0].after.user == newUser
  {
    states, steps := Runs([s], [], Setting(next));
    states, steps := Runs(states, steps, Identifying(oldUser));
    var last := states[|steps|];
    var k := |last.tasks|;
    states, steps := Extend(states, steps, Call(Refreshing(last.revision)));
    states, steps := Extend(states, steps, Lock(k));
    states, steps := Extend(states, steps, Act(k));
    states, steps := Extend(states, steps, Call(Confirming(newUser)));
    states, steps := Extend(states, steps, Confirm(k + 1));
    states, steps := Extend(states, steps, Answer(k, "new", ""));
  }

  /** The client's own fields; each method is one section under the credentials lock.
      refreshing stands for a refresh holding the refresh lock while it asks; asked is what
      it read. */
  class TokenStore {
    var credentials: Credentials
    var tokenRevision: nat
    var refreshing: bool
    ghost var asked: Credentials
    ghost var base: nat
    ghost var installs: nat

    ghost predicate Valid()
      reads this
    {
      refreshing ==> base == tokenRevision && SameTokens(asked, credentials)
    }

    constructor (credentials: Credentials)
      ensures Valid() && this.credentials == credentials && tokenRevision == 0 && !refreshing && installs == 0
    {
      this.credentials := credentials;
      tokenRevision, refreshing := 0, false;
      asked, base, installs := credentials, 0, 0;
    }

    method SetCredentials(next: Credentials)
      requires Valid() && !refreshing
      modifies `credentials, `tokenRevision
      ensures Valid() && credentials == next && tokenRevision == old(tokenRevision) + 1
    {
      credentials := next;
      tokenRevision := tokenRevision + 1;
    }

    method UpdateIdentity(user: string)
      requires Valid() && !refreshing
      modifies `credentials
      ensures Valid()
      ensures credentials == if user == "" then old(credentials) else old(credentials).(user := user)
    {
      if credentials.user != user && user != "" {
        credentials := credentials.(user := user);
      }
    }

    /** ConfirmLogin's own write: allowed while a refresh is asking, and harmless to it. */
    method ConfirmIdentity(user: string)
      requires Valid()
      modifies `credentials
      ensures Valid() && credentials.user == user && SameTokens(credentials, old(credentials))
    {
      credentials := credentials.(user := user);
    }

    method BeginRefresh(observed: nat) returns (verdict: Verdict)
      requires Valid() && !refreshing
      modifies `refreshing, `asked, `base
      ensures Valid() && verdict == Decide(credentials, tokenRevision, observed)
      ensures verdict.AlreadyRefreshed? <==> tokenRevision != observed && credentials.access != ""
      ensures verdict.AskService? <==>
        (tokenRevision == observed || credentials.access == "") && credentials.ticket != "" && credentials.user != ""
      ensures refreshing == verdict.AskService? && (refreshing ==> asked == credentials && base == tokenRevision)
    {
      if tokenRevision != observed && credentials.access != "" {
        return AlreadyRefreshed;
      }
      if credentials.ticket == "" || credentials.user == "" {
        return NotLoggedIn;
      }
      refreshing, asked, base := true, credentials, tokenRevision;
      verdict := AskService;
    }

    /** The token service answered; a blank token installs nothing. What is replaced are
        the tokens the refresh asked with, whoever they are now said to belong to. */
    method FinishRefresh(access: string, refresh: string) returns (installed: bool)
      requires Valid() && refreshing
      modifies this
      ensures Valid() && !refreshing && installed == (access != "")
      ensures !installed ==> credentials == old(credentials) && tokenRevision == old(tokenRevision) && installs == old(installs)
      ensures installed ==>
        && credentials.access == access && credentials.refresh == (if refresh == "" then old(asked).refresh else refresh)
        && credentials.ticket == old(asked).ticket && credentials.user == old(credentials.user)
        && tokenRevision == old(base) + 1 && installs == old(installs) + 1
    {
      refreshing := false;
      if access == "" {
        return false;
      }
      credentials := credentials.(access := access);
      if refresh != "" {
        credentials := credentials.(refresh := refresh);
      }
      tokenRevision := tokenRevision + 1;
      installs := installs + 1;
      installed := true;
    }
  }

  datatype HttpResult = Ok | TokenExpired | Retryable | Unreachable | OtherError

  datatype Outcome = Succeeded | Failed | LoginNeeded

  /** Answers that only cost another try. */
  predicate Passing(answers: seq<HttpResult>, from: nat, to: nat) {
    to <= |answers| && forall k :: from <= k < to ==> answers[k].Retryable? || answers[k].Unreachable?
  }

  datatype Tried = Ended(outcome: Outcome) | Expired

  /** The tries with one token: a delay costs one of the three, any other answer decides.
      sent is the number of requests so far. */
  method TryToken(store: TokenStore, answers: seq<HttpResult>, from: nat) returns (tried: Tried, sent: nat)
    requires from + 3 <= |answers|
    ensures store.credentials.access == "" ==> tried == Ended(LoginNeeded) && sent == from
    ensures store.credentials.access != "" ==>
      && from < sent <= from + 3 && Passing(answers, from, sent - 1)
      && match answers[sent - 1] {
           case Ok => tried == Ended(Succeeded)
           case OtherError => tried == Ended(Failed)
           case TokenExpired => tried == Expired
           case _ => tried == Ended(Failed) && sent == from + 3
         }
  {
    sent := from;
    var transient := 0;
    while transient < 3
      invariant 0 <= transient <= 2 && sent == from + transient && Passing(answers, from, sent)
      invariant store.credentials.access == "" ==> transient == 0
      decreases 3 - transient
    {
      if store.credentials.access == "" {
        return Ended(LoginNeeded), sent;
      }
      sent := sent + 1;
      match answers[sent - 1] {
        case Ok => return Ended(Succeeded), sent;
        case OtherError => return Ended(Failed), sent;
        case TokenExpired => return Expired, sent;
        case _ =>
          if transient == 2 {
            return Ended(Failed), sent;
          }
          transient := transient + 1;
      }
    }
  }

  /** requestJSON: at most three tries per token, at most one refresh, and a token
      that expires again after the refresh means the login is gone. sent counts HTTP
      requests; refreshAnswer is what the token service would return. k, and after a
      refresh m, is the first answer to each token that is no mere delay: how it ends is
      decided by those two and by whether the refresh could be had. */
  method RequestJSON(store: TokenStore, answers: seq<HttpResult>, refreshAnswer: string)
        returns (outcome: Outcome, sent: nat, refreshed: nat)
    requires store.Valid() && !store.refreshing && |answers| == 6
    modifies store
    ensures store.Valid() && !store.refreshing
    ensures sent <= 6 && refreshed <= 1
    ensures outcome == Succeeded ==> 0 < sent && answers[sent - 1] == Ok
    ensures old(store.credentials.access) == "" ==> outcome == LoginNeeded && sent == 0
    ensures store.installs <= old(store.installs) + refreshed
    ensures forall k :: 0 <= k < sent - 1 ==> answers[k] == TokenExpired || answers[k] == Retryable || answers[k] == Unreachable
    ensures var read := old(store.credentials);
      forall k :: 0 <= k < 3 && read.access != "" && Passing(answers, 0, k) ==>
        match answers[k] {
          case Ok => outcome == Succeeded && sent == k + 1 && refreshed == 0
          case OtherError => outcome == Failed && sent == k + 1 && refreshed == 0
          case TokenExpired =>
            if read.ticket == "" || read.user == "" then outcome == LoginNeeded && sent == k + 1 && refreshed == 0
            else refreshed == 1 && (refreshAnswer == "" ==> outcome == Failed && sent == k + 1)
          case _ => k == 2 ==> outcome == Failed && sent == 3 && refreshed == 0
        }
    ensures var read := old(store.credentials);
      read.access != "" && read.ticket != "" && read.user != "" && refreshAnswer != "" ==>
        forall k, m :: 0 <= k < 3 && Passing(answers, 0, k) && answers[k].TokenExpired? && k < m <= k + 3 && Passing(answers, k + 1, m) ==>
          && store.credentials.access == refreshAnswer && store.installs == old(store.installs) + 1
          && match answers[m] {
               case Ok => outcome == Succeeded && sent == m + 1
               case OtherError => outcome == Failed && sent == m + 1
               case TokenExpired => outcome == LoginNeeded && sent == m + 1
               case _ => m == k + 3 ==> outcome == Failed && sent == m + 1
             }
  {
    sent, refreshed := 0, 0;
    var authentication := 0;
    while authentication < 2
      invariant 0 <= authentication <= 1 && store.Valid() && !store.refreshing && refreshed == authentication
      invariant authentication == 0 ==>
        store.credentials == old(store.credentials) && store.installs == old(store.installs) && sent == 0
      invariant authentication == 1 ==>
        && 1 <= sent <= 3 && Passing(answers, 0, sent - 1) && answers[sent - 1].TokenExpired?
        && old(store.credentials.ticket) != "" && old(store.credentials.user) != "" && old(store.credentials.access) != ""
        && store.credentials.access == refreshAnswer != "" && store.installs == old(store.installs) + 1
    {
      var observed := store.tokenRevision;
      var tried: Tried;
      tried, sent := TryToken(store, answers, sent);
      if tried.Ended? {
        return tried.outcome, sent, refreshed;
      }
      if authentication == 1 {
        return LoginNeeded, sent, refreshed;
      }
      var verdict := store.BeginRefresh(observed);
      if verdict == NotLoggedIn {
        return LoginNeeded, sent, refreshed;
      }
      if verdict == AskService {
        refreshed := refreshed + 1;
        var installed := store.FinishRefresh(refreshAnswer, "");
        if !installed {
          return Failed, sent, refreshed;
        }
      }
      authentication := authentication + 1;
    }
    outcome := LoginNeeded;
  }
}
