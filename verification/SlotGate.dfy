/** The download and upload slot gates and their shared wake-up channel
    (acquireDownloadSlot, acquireUploadSlot and signalTransferSlotChangeLocked in
    internal/sync/engine.go). Closing and replacing the channel is one step of a
    generation counter: a waiter sleeps on the generation it saw under the lock. */
module SlotGate {
  import opened Wrappers

  const DEFAULT_CONCURRENCY: int := 2

  datatype Gate = Download | Upload

  /** A transfer between its first look at a gate and giving the slot back. */
  datatype Client =
    | Looking(gate: Gate, limit: int)
    | Waiting(gate: Gate, limit: int, generation: nat)
    | Holding(gate: Gate)
    | Left

  datatype Slots = Slots(downloadActive: int, uploadActive: int, configured: int, generation: nat, clients: seq<Client>)

  datatype Step =
    | Arrive(gate: Gate, limit: int)
    | Look(k: nat)
    | Woken(k: nat)
    | GiveUp(k: nat)
    | Release(k: nat)
    | Configure(limit: int)

  function DownloadLimit(configured: int): int {
    if configured < 1 then DEFAULT_CONCURRENCY else configured
  }

  function UploadLimit(limit: int): int {
    if limit < 1 then 1 else limit
  }

  /** A download client obeys the configured limit, an upload client its own. */
  function LimitOf(s: Slots, gate: Gate, limit: int): int {
    if gate.Download? then DownloadLimit(s.configured) else UploadLimit(limit)
  }

  function Active(s: Slots, gate: Gate): int {
    if gate.Download? then s.downloadActive else s.uploadActive
  }

  function WithActive(s: Slots, gate: Gate, n: int): Slots {
    if gate.Download? then s.(downloadActive := n) else s.(uploadActive := n)
  }

  predicate Enabled(s: Slots, step: Step) {
    match step
    case Arrive(_, _) => true
    case Look(k) => k < |s.clients| && s.clients[k].Looking?
    case Woken(k) => k < |s.clients| && s.clients[k].Waiting? && s.clients[k].generation != s.generation
    case GiveUp(k) => k < |s.clients| && s.clients[k].Waiting?
    case Release(k) => k < |s.clients| && s.clients[k].Holding?
    case Configure(_) => true
  }

  function Apply(s: Slots, step: Step): Slots
    requires Enabled(s, step)
  {
    match step
    case Arrive(gate, limit) => s.(clients := s.clients + [Looking(gate, limit)])
    case Look(k) =>
      var gate, limit := s.clients[k].gate, s.clients[k].limit;
      if Active(s, gate) < LimitOf(s, gate, limit) then
        WithActive(s, gate, Active(s, gate) + 1).(clients := s.clients[k := Holding(gate)])
      else s.(clients := s.clients[k := Waiting(gate, limit, s.generation)])
    case Woken(k) => s.(clients := s.clients[k := Looking(s.clients[k].gate, s.clients[k].limit)])
    case GiveUp(k) => s.(clients := s.clients[k := Left])
    case Release(k) =>
      var gate := s.clients[k].gate;
      var left := if Active(s, gate) > 0 then Active(s, gate) - 1 else Active(s, gate);
      WithActive(s, gate, left).(clients := s.clients[k := Left], generation := s.generation + 1)
    case Configure(limit) =>
      if s.configured == limit then s else s.(configured := limit, generation := s.generation + 1)
  }

  function Holders(clients: seq<Client>, gate: Gate): nat {
    if clients == [] then 0
    else Holders(clients[..|clients| - 1], gate) + if clients[|clients| - 1] == Holding(gate) then 1 else 0
  }

  lemma {:induction false} HoldersChange(clients: seq<Client>, gate: Gate, k: nat, c: Client)
    requires k < |clients|
    ensures Holders(clients[k := c], gate) ==
            Holders(clients, gate) - (if clients[k] == Holding(gate) then 1 else 0) + (if c == Holding(gate) then 1 else 0)
  {
    var n := |clients| - 1;
    if k == n {
      assert clients[k := c][..n] == clients[..n];
    } else {
      HoldersChange(clients[..n], gate, k, c);
      assert clients[k := c][..n] == clients[..n][k := c];
    }
  }

  /** Counts are exact, and nobody sleeps on the current generation beside a slot
      it could have. */
  ghost predicate Inv(s: Slots) {
    && s.downloadActive == Holders(s.clients, Download)
    && s.uploadActive == Holders(s.clients, Upload)
    && forall k :: 0 <= k < |s.clients| && s.clients[k].Waiting? ==>
         && s.clients[k].generation <= s.generation
         && (s.clients[k].generation == s.generation ==>
               Active(s, s.clients[k].gate) >= LimitOf(s, s.clients[k].gate, s.clients[k].limit))
  }

  lemma HolderIsCounted(clients: seq<Client>, k: nat, gate: Gate)
    requires k < |clients| && clients[k] == Holding(gate)
    ensures Holders(clients, gate) > 0
  {
    HoldersChange(clients, gate, k, Left);
  }

  lemma StepKeepsInv(s: Slots, step: Step)
    requires Inv(s) && Enabled(s, step)
    ensures Inv(Apply(s, step))
  {
    if step.Arrive? {
      assert (s.clients + [Looking(step.gate, step.limit)])[..|s.clients|] == s.clients;
    } else if !step.Configure? {
      var c := Apply(s, step).clients[step.k];
      HoldersChange(s.clients, Download, step.k, c);
      HoldersChange(s.clients, Upload, step.k, c);
      if step.Release? { HolderIsCounted(s.clients, step.k, s.clients[step.k].gate); }
    }
  }

  ghost predicate IsRun(states: seq<Slots>, steps: seq<Step>) {
    && |states| == |steps| + 1
    && states[0].clients == [] && states[0].downloadActive == states[0].uploadActive == 0
    && forall k :: 0 <= k < |steps| ==> Enabled(states[k], steps[k]) && states[k + 1] == Apply(states[k], steps[k])
  }

  lemma {:induction false} RunKeepsInv(states: seq<Slots>, steps: seq<Step>, k: nat)
    requires IsRun(states, steps) && k < |states|
    ensures Inv(states[k])
  {
    if k > 0 {
      RunKeepsInv(states, steps, k - 1);
      StepKeepsInv(states[k - 1], steps[k - 1]);
    }
  }

  /** No lost wake-up: in every reachable state a client that nothing will wake
      has no free slot under its own limit, also after the limit was raised. */
  lemma NoLostWakeUp(states: seq<Slots>, steps: seq<Step>, k: nat, who: nat)
    requires IsRun(states, steps) && k < |states|
    requires who < |states[k].clients| && states[k].clients[who].Waiting? && !Enabled(states[k], Woken(who))
    ensures var s, c := states[k], states[k].clients[who];
      if c.gate.Download? then s.downloadActive >= (if s.configured < 1 then 2 else s.configured)
      else s.uploadActive >= (if c.limit < 1 then 1 else c.limit)
  {
    RunKeepsInv(states, steps, k);
  }

  /** Counts are the holders, a grant stays within the limit in force, and the
      clamp on release never fires. */
  lemma CountsAreExact(states: seq<Slots>, steps: seq<Step>, k: nat)
    requires IsRun(states, steps) && k < |steps|
    ensures states[k].downloadActive == Holders(states[k].clients, Download)
    ensures states[k].uploadActive == Holders(states[k].clients, Upload)
    ensures steps[k].Look? && steps[k].k < |states[k].clients| ==>
      var s, t, c, d := states[k], states[k + 1], states[k].clients[steps[k].k], states[k + 1].clients[steps[k].k];
        if c.gate.Download?
        then d.Holding? <==> s.downloadActive < (if s.configured < 1 then 2 else s.configured)
        else d.Holding? <==> s.uploadActive < (if c.limit < 1 then 1 else c.limit)
    ensures steps[k].Release? && steps[k].k < |states[k].clients| ==>
      var s, t, gate := states[k], states[k + 1], states[k].clients[steps[k].k].gate;
        && t.downloadActive == s.downloadActive - (if gate.Download? then 1 else 0)
        && t.uploadActive == s.uploadActive - (if gate.Upload? then 1 else 0)
  {
    RunKeepsInv(states, steps, k);
    assert Enabled(states[k], steps[k]);
    if steps[k].Release? { HolderIsCounted(states[k].clients, steps[k].k, states[k].clients[steps[k].k].gate); }
  }

  /** Whenever a slot is given back, or the limit changes, everybody who sleeps may wake. */
  lemma EveryChangeWakesAll(states: seq<Slots>, steps: seq<Step>, k: nat, who: nat)
    requires IsRun(states, steps) && k < |steps| && who < |states[k].clients| && states[k].clients[who].Waiting?
    requires steps[k].Release? || (steps[k].Configure? && steps[k].limit != states[k].configured)
    ensures Enabled(states[k + 1], Woken(who))
  {
    RunKeepsInv(states, steps, k);
    assert Enabled(states[k], steps[k]);
  }

  /** The engine's fields behind the gates. Each method is one locked section. */
  class TransferSlots {
    var downloadActive: int
    var uploadActive: int
    var downloadConcurrency: int
    var slotChanged: nat
    ghost var clients: seq<Client>

    ghost function Value(): Slots
      reads this
    {
      Slots(downloadActive, uploadActive, downloadConcurrency, slotChanged, clients)
    }

    constructor (downloadConcurrency: int)
      ensures Inv(Value()) && clients == [] && this.downloadConcurrency == downloadConcurrency
    {
      downloadActive, uploadActive, slotChanged := 0, 0, 0;
      this.downloadConcurrency := downloadConcurrency;
      clients := [];
    }

    ghost method Enter(gate: Gate, limit: int)
      requires Inv(Value())
      modifies this`clients
      ensures Value() == Apply(old(Value()), Arrive(gate, limit)) && Inv(Value())
    {
      StepKeepsInv(Value(), Arrive(gate, limit));
      clients := clients + [Looking(gate, limit)];
    }

    /** One pass of the acquire loop: the slot, or the channel to sleep on. */
    method TryAcquireDownload(ghost k: nat) returns (acquired: bool, changed: nat)
      requires Inv(Value()) && k < |clients| && clients[k].Looking? && clients[k].gate.Download?
      modifies this`downloadActive, this`clients
      ensures Value() == Apply(old(Value()), Look(k)) && Inv(Value())
      ensures changed == slotChanged
      ensures acquired <==> old(downloadActive) < if downloadConcurrency < 1 then 2 else downloadConcurrency
      ensures downloadActive == old(downloadActive) + if acquired then 1 else 0
      ensures clients == old(clients)[k := if acquired then Holding(Download) else Waiting(Download, old(clients[k].limit), slotChanged)]
    {
      StepKeepsInv(Value(), Look(k));
      var limit := if downloadConcurrency < 1 then DEFAULT_CONCURRENCY else downloadConcurrency;
      changed := slotChanged;
      acquired := downloadActive < limit;
      if acquired {
        downloadActive := downloadActive + 1;
        clients := clients[k := Holding(Download)];
      } else {
        clients := clients[k := Waiting(Download, clients[k].limit, slotChanged)];
      }
    }

    method TryAcquireUpload(limit: int, ghost k: nat) returns (acquired: bool, changed: nat)
      requires Inv(Value()) && k < |clients| && clients[k] == Looking(Upload, limit)
      modifies this`uploadActive, this`clients
      ensures Value() == Apply(old(Value()), Look(k)) && Inv(Value())
      ensures changed == slotChanged
      ensures acquired <==> old(uploadActive) < if limit < 1 then 1 else limit
      ensures uploadActive == old(uploadActive) + if acquired then 1 else 0
      ensures clients == old(clients)[k := if acquired then Holding(Upload) else Waiting(Upload, limit, slotChanged)]
    {
      StepKeepsInv(Value(), Look(k));
      var bound := if limit < 1 then 1 else limit;
      changed := slotChanged;
      acquired := uploadActive < bound;
      if acquired {
        uploadActive := uploadActive + 1;
        clients := clients[k := Holding(Upload)];
      } else {
        clients := clients[k := Waiting(Upload, limit, slotChanged)];
      }
    }

    method ReleaseSlot(gate: Gate, ghost k: nat)
      requires Inv(Value()) && k < |clients| && clients[k] == Holding(gate)
      modifies this
      ensures Value() == Apply(old(Value()), Release(k)) && Inv(Value())
      ensures downloadActive == old(downloadActive) - (if gate.Download? then 1 else 0)
      ensures uploadActive == old(uploadActive) - (if gate.Upload? then 1 else 0)
      ensures slotChanged == old(slotChanged) + 1 && clients == old(clients)[k := Left]
    {
      StepKeepsInv(Value(), Release(k));
      HolderIsCounted(clients, k, gate);
      if gate.Download? {
        if downloadActive > 0 { downloadActive := downloadActive - 1; }
      } else {
        if uploadActive > 0 { uploadActive := uploadActive - 1; }
      }
      slotChanged := slotChanged + 1;
      clients := clients[k := Left];
    }

    method ApplyConcurrency(limit: int)
      requires Inv(Value())
      modifies this
      ensures Value() == Apply(old(Value()), Configure(limit)) && Inv(Value())
      ensures downloadConcurrency == limit && slotChanged == old(slotChanged) + if limit == old(downloadConcurrency) then 0 else 1
      ensures downloadActive == old(downloadActive) && uploadActive == old(uploadActive) && clients == old(clients)
    {
      StepKeepsInv(Value(), Configure(limit));
      var differs := downloadConcurrency != limit;
      downloadConcurrency := limit;
      if differs {
        slotChanged := slotChanged + 1;
      }
    }
  }
}
