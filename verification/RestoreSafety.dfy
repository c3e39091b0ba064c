/** Which Jobs a pass may delete, and what it may put in their place. */
module RestoreSafety {
  import opened Objects
  import opened Checkpoints
  import opened Restore
  import opened Preemption
  import opened Controller

  /** Job `n` of `s` has gone or been replaced in `t`. */
  predicate Changed(s: State, t: State, n: string)
  {
    n in s.jobs && Lookup(t.jobs, n) != Some(s.jobs[n])
  }

  /**
    The new Job is the old one with the images of the first checkpoint not taken from it, on the first usable
    instance of its index.
  */
  ghost predicate RestoredBy(s: State, n: string, before: Job, after: Job)
  {
    exists cp, pi ::
      FirstApplicable(s.checkpoints, n) == Some(cp) && FirstUsable(s.pis, IndexOrZero(before)) == Some(pi)
      && after == RestoredJob(s.spec, before, Images(cp), pi.nodeName)
  }

  ghost predicate HasApplicable(s: State, n: string)
  {
    exists cp :: cp in s.checkpoints && Applicable(cp, n)
  }

  /**
    A deletion of `n` is due: it was affected, neither restored before nor being deleted, and there is a
    checkpoint not taken from it. It is lost only if its index has no usable instance.
  */
  ghost predicate Justified(s: State, t: State, affected: set<string>, n: string)
  {
    && n in affected && n in s.jobs && !s.jobs[n].annotated && s.jobs[n].deletedAt.None?
    && t.deletes[n] == s.deletes[n] + 1
    && HasApplicable(s, n)
    && (n in t.jobs ==> RestoredBy(s, n, s.jobs[n], t.jobs[n]))
    && (n !in t.jobs ==> FirstUsable(s.pis, IndexOrZero(s.jobs[n])).None?)
  }

  ghost predicate SameButJobs(s: State, t: State)
  {
    t == s.(jobs := t.jobs, checkpoints := t.checkpoints,
            clock := t.clock, deletes := t.deletes, launched := t.launched)
  }

  /** All that handling preemption does to the Jobs: justified deletions, restores in place, a later clock. */
  ghost predicate Restores(s: State, t: State, affected: set<string>)
  {
    && SameButJobs(s, t)
    && (forall n :: n in t.jobs ==> n in s.jobs)
    && (forall n :: Changed(s, t, n) ==> Justified(s, t, affected, n) && s.clock + 2 <= t.clock)
    && (forall n :: !Changed(s, t, n) ==> t.deletes[n] == s.deletes[n])
    && s.clock <= t.clock
    && |s.checkpoints| <= |t.checkpoints|
    && (forall j :: 0 <= j < |s.checkpoints| ==> t.checkpoints[j] == s.checkpoints[j])
    && (forall j :: |s.checkpoints| <= j < |t.checkpoints| ==> InFlight(t.checkpoints[j]))
  }

  lemma HitReplaced(s: State, update: set<string>, n: string)
    requires Hit(s, update, s.checkpoints, n)
    ensures Changed(s, ProcessCompleted(s, update), n)
    ensures HasApplicable(s, n)
    ensures n in ProcessCompleted(s, update).jobs ==>
      RestoredBy(s, n, s.jobs[n], ProcessCompleted(s, update).jobs[n])
    ensures n !in ProcessCompleted(s, update).jobs ==> FirstUsable(s.pis, IndexOrZero(s.jobs[n])).None?
  {
    hide FirstApplicable, FirstUsable, WithImages, ImageMap, ReplicaLabels;
    var cp := FirstApplicable(s.checkpoints, n).value;
    var pi := FirstUsable(s.pis, IndexOrZero(s.jobs[n]));
    if pi.Some? {
      assert JobAfter(s, update, s.checkpoints, n)
        == Some(RestoredJob(s.spec, s.jobs[n], Images(cp), pi.value.nodeName));
    }
  }

  lemma NotHitUnchanged(s: State, update: set<string>, n: string)
    requires !Hit(s, update, s.checkpoints, n)
    ensures !Changed(s, ProcessCompleted(s, update), n)
  {
    hide Hit, Replacement;
  }

  lemma SetMultiplicity(a: set<string>, m: multiset<string>, n: string)
    ensures (m + multiset(a))[n] == m[n] + if n in a then 1 else 0
  {
  }

  lemma ProcessCompletedRestores(s: State, update: set<string>)
    ensures Restores(s, ProcessCompleted(s, update), update)
  {
    hide Replacement, Changed, RestoredBy, HasApplicable, FirstApplicable, FirstUsable;
    var t := ProcessCompleted(s, update);
    forall n ensures Changed(s, t, n) ==> Justified(s, t, update, n) && s.clock + 2 <= t.clock {
      SetMultiplicity(Deleted(s, update), s.deletes, n);
      if Hit(s, update, s.checkpoints, n) {
        HitReplaced(s, update, n);
        assert n in Deleted(s, update);
        NonEmpty(Deleted(s, update), n);
      } else {
        NotHitUnchanged(s, update, n);
      }
    }
    forall n ensures !Changed(s, t, n) ==> t.deletes[n] == s.deletes[n] {
      SetMultiplicity(Deleted(s, update), s.deletes, n);
      if Hit(s, update, s.checkpoints, n) { HitReplaced(s, update, n); }
    }
  }

  lemma NonEmpty(a: set<string>, n: string)
    requires n in a
    ensures |a| >= 1
  {
    assert |a| == |a - {n}| + 1;
  }

  /** A Job replaced in the first stage is annotated, so the second leaves it alone. */
  lemma RestoresCompose(s: State, m: State, t: State, a: set<string>, b: set<string>)
    requires Restores(s, m, a) && Restores(m, t, b) && a <= b
    ensures Restores(s, t, b)
  {
    hide RestoredBy, RestoredJob;
    forall n ensures Changed(s, t, n) ==> Justified(s, t, b, n) && s.clock + 2 <= t.clock {
      ComposeJob(s, m, t, a, b, n);
    }
    forall n ensures !Changed(s, t, n) ==> t.deletes[n] == s.deletes[n] {
      ComposeJob(s, m, t, a, b, n);
    }
  }

  lemma ComposeJob(s: State, m: State, t: State, a: set<string>, b: set<string>, n: string)
    requires Restores(s, m, a) && Restores(m, t, b) && a <= b
    ensures Changed(s, t, n) ==> Justified(s, t, b, n) && s.clock + 2 <= t.clock
    ensures !Changed(s, t, n) ==> t.deletes[n] == s.deletes[n]
  {
    hide RestoredJob;
    if Changed(s, m, n) {
      assert Justified(s, m, a, n);
      if n in m.jobs { RestoredIsAnnotated(s, n, s.jobs[n], m.jobs[n]); }
      assert !Changed(m, t, n);
      assert n in t.jobs ==> n in m.jobs && t.jobs[n] == m.jobs[n];
    } else if Changed(m, t, n) {
      assert Justified(m, t, b, n);
      assert m.jobs[n] == s.jobs[n];
      ApplicableEarlier(s, m, a, n);
      if n in t.jobs { RestoredEarlier(s, m, n, m.jobs[n], t.jobs[n]); }
    }
  }

  lemma RestoredIsAnnotated(s: State, n: string, before: Job, after: Job)
    requires RestoredBy(s, n, before, after)
    ensures after.annotated && after.deletedAt.None?
  {
  }

  lemma ApplicableEarlier(s: State, m: State, a: set<string>, n: string)
    requires Restores(s, m, a) && HasApplicable(m, n)
    ensures HasApplicable(s, n)
  {
    hide Changed, Justified, Images;
    var cp :| cp in m.checkpoints && Applicable(cp, n);
    var j :| 0 <= j < |m.checkpoints| && m.checkpoints[j] == cp;
    assert j < |s.checkpoints| && s.checkpoints[j] == cp;
    assert cp in s.checkpoints;
  }

  /** Checkpoints started in between are still in progress, so they are not the ones applied. */
  lemma RestoredEarlier(s: State, m: State, n: string, before: Job, after: Job)
    requires Restores(s, m, {}) || exists a :: Restores(s, m, a)
    requires RestoredBy(m, n, before, after)
    ensures RestoredBy(s, n, before, after)
  {
    hide RestoredJob, Changed, Justified, Images, FirstApplicable, FirstUsable;
    var cp, pi :| FirstApplicable(m.checkpoints, n) == Some(cp) && FirstUsable(m.pis, IndexOrZero(before)) == Some(pi)
      && after == RestoredJob(m.spec, before, Images(cp), pi.nodeName);
    SameFirst(s.checkpoints, m.checkpoints, n);
  }

  /** Checkpoints in progress that have been appended make no difference to which one applies first. */
  lemma {:induction false} SameFirst(cps: seq<Checkpoint>, later: seq<Checkpoint>, n: string)
    requires cps <= later && forall j :: |cps| <= j < |later| ==> InFlight(later[j])
    ensures FirstApplicable(later, n) == FirstApplicable(cps, n)
  {
    hide Images;
    if |later| > |cps| {
      var k := |later| - 1;
      assert later == later[..k] + [later[k]];
      FirstApplicableSnoc(later[..k], later[k], n);
      SameFirst(cps, later[..k], n);
    } else {
      assert later == cps;
    }
  }

  lemma RestoresNothing(s: State, t: State, affected: set<string>)
    requires SameButJobs(s, t) && t.jobs == s.jobs && t.clock == s.clock && t.deletes == s.deletes && Extends(s, t, 1)
    ensures Restores(s, t, affected)
  {
  }

  lemma HandleOneRestores(s: State, pi: Instance, update: set<string>)
    ensures Restores(s, HandleOne(s, pi, update), update)
  {
    hide Restores, Added, AlreadyHandled, ProcessCompleted, FirstAlive, JobsOnNode;
    var t := HandleOne(s, pi, update);
    if OthersAlive(s.pis, pi.name) > 0 {
      var r := ProcessCompleted(s, update);
      ProcessCompletedRestores(s, update);
      CheckpointAliveExtends(r, pi.nodeName);
      RestoresNothing(r, CheckpointAlive(r, pi.nodeName), update);
      RestoresCompose(s, r, CheckpointAlive(r, pi.nodeName), update, update);
    } else {
      RestoresNothing(s, t, update);
    }
  }

  lemma CheckpointAliveExtends(s: State, lost: string)
    ensures var t := CheckpointAlive(s, lost);
      SameButJobs(s, t) && t.jobs == s.jobs && t.clock == s.clock && t.deletes == s.deletes && Extends(s, t, 1)
  {
    hide FirstAlive, FirstOfJob;
  }

  // ---------- The whole phase ----------

  /** The un-restored Jobs of the preempted instances. */
  function AllAffected(s: State): set<string>
  {
    set k, n | 0 <= k < |s.pis| && Preempted(s.pis[k]) && n in Affected(s, s.pis[k]) :: n
  }

  /** Later in the pass an instance affects no Job it did not affect at the start. */
  lemma AffectedLater(s: State, m: State, k: nat)
    requires Restores(s, m, AllAffected(s)) && k < |s.pis| && Preempted(s.pis[k])
    ensures Affected(m, s.pis[k]) <= AllAffected(s)
  {
    hide RestoredJob, JobsOnNode;
    forall n | n in Affected(m, s.pis[k]) ensures n in Affected(s, s.pis[k]) {
      if s.pis[k].index.Some? {
        assert n in m.jobs && n in s.jobs;
        if Changed(s, m, n) {
          assert Justified(s, m, AllAffected(s), n);
          RestoredIsAnnotated(s, n, s.jobs[n], m.jobs[n]);
        }
      }
    }
  }

  lemma {:induction false} HandleFromRestores(s: State, m: State, k: nat, update: set<string>)
    requires Restores(s, m, AllAffected(s)) && update <= AllAffected(s)
    ensures Restores(s, HandleFrom(m, k, update), AllAffected(s))
    decreases |s.pis| - k
  {
    hide HandleOne, Affected, AllAffected;
    if k < |m.pis| {
      if Preempted(m.pis[k]) {
        AffectedLater(s, m, k);
        var u := update + Affected(m, m.pis[k]);
        var r := HandleOne(m, m.pis[k], u);
        HandleOneRestores(m, m.pis[k], u);
        Widen(m, r, u, AllAffected(s));
        RestoresCompose(s, m, r, AllAffected(s), AllAffected(s));
        HandleFromRestores(s, r, k + 1, u);
      } else {
        HandleFromRestores(s, m, k + 1, update);
      }
    }
  }

  lemma Widen(s: State, t: State, a: set<string>, b: set<string>)
    requires Restores(s, t, a) && a <= b
    ensures Restores(s, t, b)
  {
    hide RestoredBy;
  }

  lemma PreemptionRestores(s: State)
    ensures Restores(s, AfterPreemption(s), AllAffected(s))
  {
    hide Restores, HandleFrom, AllAffected;
    RestoresNothing(s, s, AllAffected(s));
    HandleFromRestores(s, s, 0, {});
  }
}
