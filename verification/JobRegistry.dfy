/** The bounded, insertion-ordered store of recent jobs: createJobRegistry of src/stratum/job-registry.js. */
module JobRegistry {
  import opened Wrappers

  /** powHash names the template the miner hashes; target is its network target. */
  datatype Job = Job(id: nat, powHash: string, target: string)

  /** A JavaScript Map: keys are distinct and keep the place of their first insertion. */
  ghost predicate KeysDistinct(jobs: seq<Job>) {
    forall i, j | 0 <= i < j < |jobs| :: jobs[i].id != jobs[j].id
  }

  function IndexOf(jobs: seq<Job>, id: nat): (k: Option<nat>)
    ensures k.Some? ==> k.value < |jobs| && jobs[k.value].id == id
    ensures k.None? ==> forall j | j in jobs :: j.id != id
  {
    if jobs == [] then None
    else if jobs[|jobs| - 1].id == id then Some(|jobs| - 1)
    else IndexOf(jobs[..|jobs| - 1], id)
  }

  /** Map.set. */
  function Put(jobs: seq<Job>, j: Job): seq<Job> {
    var k := IndexOf(jobs, j.id);
    if k.Some? then jobs[k.value := j] else jobs + [j]
  }

  function Newest(jobs: seq<Job>, limit: nat): (r: seq<Job>)
    ensures |r| == if |jobs| <= limit then |jobs| else limit
  {
    if |jobs| <= limit then jobs else jobs[|jobs| - limit..]
  }

  function Added(jobs: seq<Job>, j: Job, limit: nat): seq<Job> {
    Newest(Put(jobs, j), limit)
  }

  function Lookup(jobs: seq<Job>, id: nat): (j: Option<Job>)
    ensures j.Some? <==> exists x | x in jobs :: x.id == id
    ensures j.Some? ==> j.value in jobs && j.value.id == id
  {
    var k := IndexOf(jobs, id);
    if k.Some? then
      assert jobs[k.value] in jobs;
      Some(jobs[k.value])
    else None
  }

  class Registry {
    var jobs: seq<Job>
    var currentId: Option<nat>
    const maxJobs: nat

    constructor (maxJobs: nat)
      ensures jobs == [] && currentId == None && this.maxJobs == maxJobs
    {
      jobs, currentId := [], None;
      this.maxJobs := maxJobs;
    }

    method Add(j: Job)
      modifies this
      ensures jobs == Added(old(jobs), j, maxJobs) && currentId == Some(j.id)
    {
      jobs := Put(jobs, j);
      currentId := Some(j.id);
      ghost var all, dropped: nat := jobs, 0;
      while |jobs| > maxJobs
        invariant currentId == Some(j.id) && dropped <= |all| && jobs == all[dropped..]
        invariant dropped == 0 || |jobs| >= maxJobs
      {
        jobs := jobs[1..];
        dropped := dropped + 1;
      }
      assert all[0..] == all;
    }
  }

  // ---------- what the registry retains ----------

  lemma PutDistinct(jobs: seq<Job>, j: Job)
    requires KeysDistinct(jobs)
    ensures KeysDistinct(Put(jobs, j)) && j in Put(jobs, j)
    ensures IndexOf(jobs, j.id).None? ==> Put(jobs, j) == jobs + [j]
  {
    var k := IndexOf(jobs, j.id);
    if k.Some? {
      assert Put(jobs, j)[k.value] == j;
    } else {
      assert forall i | 0 <= i < |jobs| :: jobs[i] in jobs;
    }
  }

  lemma FoundIsIt(jobs: seq<Job>, j: Job)
    requires KeysDistinct(jobs) && j in jobs
    ensures Lookup(jobs, j.id) == Some(j)
  {
    var i :| 0 <= i < |jobs| && jobs[i] == j;
    var k := IndexOf(jobs, j.id).value;
    assert k < i || k == i || i < k;
  }

  function AddAll(added: seq<Job>, limit: nat): seq<Job> {
    if added == [] then [] else Added(AddAll(added[..|added| - 1], limit), added[|added| - 1], limit)
  }

  lemma NewestStep(a: seq<Job>, x: Job, limit: nat)
    ensures Newest(Newest(a, limit) + [x], limit) == Newest(a + [x], limit)
  {
    if |a| > limit {
      var drop := |a| - limit;
      assert Newest(a, limit) + [x] == (a + [x])[drop..];
      assert (a + [x])[drop..][1..] == (a + [x])[drop + 1..];
    }
  }

  lemma NewestInside(a: seq<Job>, limit: nat, x: Job)
    requires x in Newest(a, limit)
    ensures x in a
  {
  }

  /** After any series of new jobs the registry holds exactly the newest ones, so a job survives limit - 1 successors. */
  lemma {:induction false} HoldsNewest(added: seq<Job>, limit: nat)
    requires KeysDistinct(added)
    ensures AddAll(added, limit) == Newest(added, limit)
  {
    hide Newest;
    if added == [] {
      NothingHeld(limit);
    } else {
      var n := |added| - 1;
      HoldsNewest(added[..n], limit);
      var before := Newest(added[..n], limit);
      forall x | x in before ensures x.id != added[n].id {
        NewestInside(added[..n], limit, x);
      }
      assert Put(before, added[n]) == before + [added[n]];
      NewestStep(added[..n], added[n], limit);
      assert added == added[..n] + [added[n]];
    }
  }

  lemma NothingHeld(limit: nat)
    ensures Newest([], limit) == []
  {
  }

  lemma HeldPlace(added: seq<Job>, limit: nat, i: nat)
    requires i < |Newest(added, limit)|
    ensures var drop := |added| - |Newest(added, limit)|;
      drop >= 0 && (drop == 0 || |Newest(added, limit)| == limit) && Newest(added, limit)[i] == added[i + drop]
  {
  }

  lemma HeldDistinct(added: seq<Job>, limit: nat)
    requires KeysDistinct(added)
    ensures KeysDistinct(Newest(added, limit))
  {
  }

  lemma PutPlace(jobs: seq<Job>, j: Job)
    ensures |jobs| <= |Put(jobs, j)| <= |jobs| + 1
    ensures exists i :: 0 <= i < |Put(jobs, j)| && Put(jobs, j)[i] == j && (|Put(jobs, j)| > |jobs| ==> i == |jobs|)
  {
    var k := IndexOf(jobs, j.id);
    var i := if k.Some? then k.value else |jobs|;
    assert Put(jobs, j)[i] == j;
  }

  /** Bounded and without duplicate ids; the job added last is there whenever anything can be. */
  lemma AddKeeps(jobs: seq<Job>, j: Job, limit: nat)
    requires KeysDistinct(jobs) && |jobs| <= limit
    ensures KeysDistinct(Added(jobs, j, limit)) && |Added(jobs, j, limit)| <= limit
    ensures limit >= 1 ==> Lookup(Added(jobs, j, limit), j.id) == Some(j)
  {
    PutDistinct(jobs, j);
    PutPlace(jobs, j);
    var put := Put(jobs, j);
    HeldDistinct(put, limit);
    hide Put, Newest, IndexOf, Lookup, KeysDistinct;
    if limit >= 1 {
      var i :| 0 <= i < |put| && put[i] == j && (|put| > |jobs| ==> i == |jobs|);
      HeldPlace(put, limit, i - (|put| - |Newest(put, limit)|));
      FoundIsIt(Newest(put, limit), j);
    }
  }

  /** The k-th of a series of new jobs is retained exactly while fewer than limit jobs were added after it. */
  lemma RetainedIff(added: seq<Job>, limit: nat, k: nat)
    requires KeysDistinct(added) && k < |added|
    ensures Lookup(AddAll(added, limit), added[k].id) == (if |added| - 1 - k < limit then Some(added[k]) else None)
  {
    HoldsNewest(added, limit);
    var held := Newest(added, limit);
    HeldDistinct(added, limit);
    hide Newest, AddAll, IndexOf;
    if |added| - 1 - k < limit {
      HeldPlace(added, limit, k - (|added| - |held|));
      FoundIsIt(held, added[k]);
    } else {
      forall x | x in held ensures x.id != added[k].id {
        var i :| 0 <= i < |held| && held[i] == x;
        HeldPlace(added, limit, i);
      }
    }
  }

  /** A known id keeps its place; a new one goes to the end. */
  lemma PutMeans(jobs: seq<Job>, j: Job, k: nat)
    requires KeysDistinct(jobs) && k < |jobs|
    ensures Put(jobs, j)[k] == if jobs[k].id == j.id then j else jobs[k]
    ensures (exists x | x in jobs :: x.id == j.id) ==> |Put(jobs, j)| == |jobs|
    ensures (forall x | x in jobs :: x.id != j.id) ==> Put(jobs, j) == jobs + [j]
  {
    var i := IndexOf(jobs, j.id);
    assert jobs[k] in jobs;
    hide IndexOf;
    if i.Some? {
      assert jobs[i.value] in jobs;
      assert k < i.value || k == i.value || i.value < k;
    }
  }

  /** Evicting drops the oldest jobs, and no more of them than needed. */
  lemma NewestMeans(jobs: seq<Job>, limit: nat)
    ensures exists dropped: seq<Job> :: jobs == dropped + Newest(jobs, limit)
    ensures |Newest(jobs, limit)| == if |jobs| <= limit then |jobs| else limit
  {
    var k := |jobs| - |Newest(jobs, limit)|;
    assert jobs == jobs[..k] + Newest(jobs, limit);
  }
}
