/** The launch-command service's two writers of the evidence packs, on a table they change in place. */
module EvidencePacks {
  import opened Schema
  import opened Wrappers
  import opened EvidenceRetention

  class LaunchCommandService {
    var packs: Packs
    const keepFor: nat

    constructor (packs: Packs, keepFor: nat)
      ensures this.packs == packs && this.keepFor == keepFor
    {
      this.packs := packs;
      this.keepFor := keepFor;
    }

    method GenerateEvidencePack(id: Id, session: Id, blocked: bool, admin: Id, now: int)
      requires id !in packs
      modifies this
      ensures Some(packs) == Step(old(packs), Generate(id, session, blocked, admin, now, keepFor))
      ensures packs.Keys == old(packs).Keys + {id} && forall k :: k in old(packs) ==> packs[k] == old(packs)[k]
      ensures blocked ==>
                packs[id] == Pack(session, "incomplete", admin, now, Some(Retention("working", Some(now + keepFor))))
      ensures !blocked ==> packs[id] == Pack(session, "complete", admin, now, Some(Retention("final", None)))
    {
      var status := if blocked then "incomplete" else "complete";
      var class_ := if status == "complete" then "final" else "working";
      var until := if status == "complete" then None else Some(now + keepFor);
      packs := packs[id := Pack(session, status, admin, now, Some(Retention(class_, until)))];
    }

    /** Deletions stay pending until the commit, so every query sees the table as it was. */
    method PruneExpiredWorkingEvidence(now: int) returns (deleted: nat)
      modifies this
      ensures Some(packs) == Step(old(packs), Prune(now))
      ensures forall k :: k in packs ==> k in old(packs) && packs[k] == old(packs)[k]
      ensures forall k {:trigger k in packs} :: k in old(packs) ==>
                var p := old(packs)[k];
                k !in packs <==>
                  && p.status == "incomplete" && p.retention.Some? && p.retention.value.class_ == "working"
                  && p.retention.value.until.Some? && p.retention.value.until.value <= now
                  && exists j :: j in old(packs) && old(packs)[j].session == p.session
                                 && old(packs)[j].generatedAt > p.generatedAt
      ensures deleted == |old(packs)| - |packs|
    {
      var doomed := FindDoomed(packs, now);
      deleted := |doomed|;
      RestIsPruned(packs, now, doomed);
      if deleted > 0 {
        packs := packs - doomed;
      } else {
        assert packs - doomed == packs;
      }
    }
  }

  /** The selected rows, one by one, each with its query for a newer pack of the session. */
  method FindDoomed(t: Packs, now: int) returns (doomed: set<Id>)
    ensures forall k :: k in doomed <==> k in t && Expired(t[k], now) && Superseded(t, k)
  {
    var todo := set k | k in t && Expired(t[k], now);
    ghost var expired := todo;
    doomed := {};
    while todo != {}
      invariant todo <= expired
      invariant forall k :: k in doomed <==> k in expired && k !in todo && Superseded(t, k)
    {
      var k :| k in todo;
      todo := todo - {k};
      if Superseded(t, k) {
        doomed := doomed + {k};
      }
    }
  }

  lemma RestIsPruned(t: Packs, now: int, doomed: set<Id>)
    requires forall k :: k in doomed <==> k in t && Expired(t[k], now) && Superseded(t, k)
    ensures t - doomed == Pruned(t, now) && |t - doomed| == |t| - |doomed|
  {
    assert t.Keys == (t - doomed).Keys + doomed;
  }
}
