// Where a thread is relative to its critical section, independently of the protocol in use.
module Zones {
  datatype Role = WriterRole | ReaderRole

  datatype Zone = Outside | Entering(role: Role) | Inside(role: Role) | Leaving(role: Role)

  // Never two writers inside, never a writer with a reader.
  ghost predicate Exclusive(zones: seq<Zone>) {
    forall i, j :: 0 <= i < |zones| && 0 <= j < |zones| && i != j && zones[i] == Inside(WriterRole) ==>
                     !zones[j].Inside?
  }

  // A writer and a reader inside together.
  ghost predicate Overlap(zones: seq<Zone>) {
    exists i, j :: 0 <= i < |zones| && 0 <= j < |zones| &&
                     zones[i] == Inside(WriterRole) && zones[j] == Inside(ReaderRole)
  }

  lemma OverlapExcluded(zones: seq<Zone>)
    ensures Overlap(zones) ==> !Exclusive(zones)
  {
  }

  // One step of a thread that is not idle never skips a zone.
  predicate Advances(z: Zone, z': Zone) {
    match z
    case Outside => false
    case Entering(r) => z' == z || z' == Inside(r)
    case Inside(r) => z' == Leaving(r)
    case Leaving(r) => z' == z || z' == Outside
  }

  function Is(role: Role): Role -> bool {
    r => r == role
  }

  // Apart from t, whoever is in the module is a reader in its critical section.
  ghost predicate AmongReaders(zones: seq<Zone>, t: nat) {
    forall i :: 0 <= i < |zones| && i != t ==> zones[i] == Outside || zones[i] == Inside(ReaderRole)
  }

  // The roles in which threads go for their critical section, in the order they do so, are those
  // the threads are cast in.
  ghost predicate Cast(roles: seq<Role>, calls: seq<(nat, Role)>) {
    forall k :: 0 <= k < |calls| ==> calls[k].0 < |roles| && calls[k].1 == roles[calls[k].0]
  }

  lemma CastAppend(roles: seq<Role>, calls: seq<(nat, Role)>, call: (nat, Role))
    ensures Cast(roles, calls + [call]) <==> Cast(roles, calls) && call.0 < |roles| && call.1 == roles[call.0]
  {
    var longer := calls + [call];
    assert longer[|calls|] == call && forall k :: 0 <= k < |calls| ==> longer[k] == calls[k];
  }

  lemma CastConcat(roles: seq<Role>, calls: seq<(nat, Role)>, more: seq<(nat, Role)>)
    requires Cast(roles, calls) && Cast(roles, more)
    ensures Cast(roles, calls + more)
  {
  }

  // Whoever is in the module is there in the role it is cast in.
  ghost predicate Plays(roles: seq<Role>, zones: seq<Zone>) {
    |zones| == |roles| && forall t :: 0 <= t < |zones| && !zones[t].Outside? ==> zones[t].role == roles[t]
  }
}
