/** The order that makes part-way progress safe to claim: snapshot, sync the
    data, and only then record (partialFlusher in source_download.go). */
module Flushers {
  import opened Wrappers
  import opened Checkpoint
  import opened CheckpointFiles
  import opened Disk

  datatype Offsets = Offsets(at: map<int, int>, changed: bool)

  function Noted(o: Offsets, index: int, offset: int): Offsets {
    if (if index in o.at then o.at[index] else 0) == offset then o
    else Offsets(o.at[index := offset], true)
  }

  function Forgotten(o: Offsets, index: int): Offsets {
    if index !in o.at then o else Offsets(o.at - {index}, true)
  }

  class PartialFlusher {
    var at: map<int, int>
    var changed: bool
    const file: DataFile
    const checkpoint: CheckpointFile

    ghost function Value(): Offsets
      reads this
    {
      Offsets(at, changed)
    }

    constructor (file: DataFile, checkpoint: CheckpointFile, seed: map<int, int>)
      ensures this.file == file && this.checkpoint == checkpoint && Value() == Offsets(seed, false)
    {
      this.file := file;
      this.checkpoint := checkpoint;
      this.at := seed;
      this.changed := false;
    }

    method Note(index: int, offset: int)
      modifies this
      ensures Value() == Noted(old(Value()), index, offset)
      ensures (if index in at then at[index] else 0) == offset && at - {index} == old(at) - {index}
      ensures changed == (old(changed) || at != old(at))
    {
      if (if index in at then at[index] else 0) == offset {
        return;
      }
      at := at[index := offset];
      changed := true;
    }

    method Forget(index: int)
      modifies this
      ensures Value() == Forgotten(old(Value()), index)
      ensures at == old(at) - {index} && changed == (old(changed) || index in old(at))
    {
      if index !in at {
        return;
      }
      at := at - {index};
      changed := true;
    }

    /** One uninterrupted flush. The sidecar changes only after the data it
        describes reached the device, and a step that failed is owed again. */
    method Flush(syncWorks: bool, writable: bool)
      requires checkpoint.Valid()
      modifies this, file, checkpoint
      ensures checkpoint.Valid() && at == old(at)
      ensures !old(changed) ==>
                && !changed && file.content == old(file.content)
                && checkpoint.Rec() == old(checkpoint.Rec()) && checkpoint.sidecar == old(checkpoint.sidecar)
      ensures old(changed) ==> changed == !(syncWorks && writable)
      ensures old(changed) && syncWorks ==>
                && file.content == Sync(old(file.content))
                && checkpoint.Rec() == WithPartials(old(checkpoint.Rec()), checkpoint.id.size, checkpoint.id.chunkSize, at)
      ensures checkpoint.sidecar != old(checkpoint.sidecar) ==>
                file.content.dur == file.content.vol && checkpoint.sidecar == Some(Written(checkpoint.id, checkpoint.Rec()))
      ensures !syncWorks ==> file.content == old(file.content) && checkpoint.sidecar == old(checkpoint.sidecar)
    {
      if !changed {
        return;
      }
      var snapshot := at;
      changed := false;
      var synced := file.Flush(syncWorks);
      if !synced {
        changed := true;
        return;
      }
      var stored := checkpoint.SetPartials(snapshot, writable);
      if !stored {
        changed := true;
      }
    }
  }
}
