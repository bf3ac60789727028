// The per-sender, per-epoch replay high-water mark (src/chat/replay.rs).
module Replay {
  import opened Wrappers
  import opened RoomTypes

  type Marks = map<(MemberId, nat), nat>

  function LastAccepted(marks: Marks, sender: MemberId, epoch: nat): Option<nat> {
    if (sender, epoch) in marks then Some(marks[(sender, epoch)]) else None
  }

  predicate Fresh(marks: Marks, sender: MemberId, epoch: nat, sequence: nat) {
    (sender, epoch) in marks ==> marks[(sender, epoch)] < sequence
  }

  function Accepted(marks: Marks, sender: MemberId, epoch: nat, sequence: nat): Marks {
    if Fresh(marks, sender, epoch, sequence) then marks[(sender, epoch) := sequence] else marks
  }

  function Retained(marks: Marks, epoch: nat): (kept: Marks)
    ensures forall k :: k in kept <==> k in marks && k.1 == epoch
    ensures forall k :: k in kept ==> kept[k] == marks[k]
  {
    map k | k in marks && k.1 == epoch :: marks[k]
  }

  class ReplayTracker {
    var last: Marks

    constructor ()
      ensures last == map[]
    {
      last := map[];
    }

    method Accept(sender: MemberId, epoch: nat, sequence: nat) returns (isNew: bool)
      modifies this
      ensures isNew == Fresh(old(last), sender, epoch, sequence)
      ensures last == Accepted(old(last), sender, epoch, sequence)
    {
      var key := (sender, epoch);
      if key in last && sequence <= last[key] { return false; }
      last := last[key := sequence];
      return true;
    }

    method RetainEpoch(epoch: nat)
      modifies this
      ensures last == Retained(old(last), epoch)
    {
      last := map k | k in last && k.1 == epoch :: last[k];
    }
  }
}
