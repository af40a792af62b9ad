/** What an episode table says about the set of events behind it, whatever order they came in. */
module IncidentEpisodes {
  import opened HealthEvents
  import opened IncidentJournal

  ghost predicate HasFault(s: set<Event>, episode: nat) {
    exists e :: e in s && e.episodeId == episode && e.kind != Recovery
  }

  ghost predicate HasRecovery(s: set<Event>, episode: nat) {
    exists e :: e in s && e.episodeId == episode && e.kind == Recovery
  }

  ghost predicate HasSequence(s: set<Event>, episode: nat, sequence: nat) {
    exists e :: e in s && e.episodeId == episode && e.sequence == sequence
  }

  /** An episode's entry: recovered exactly when the recovery is there, and the largest sequence. */
  ghost predicate TellsEpisode(ep: Episode, s: set<Event>, episode: nat) {
    && HasFault(s, episode)
    && (ep.recovered <==> HasRecovery(s, episode))
    && HasSequence(s, episode, ep.lastSequence)
  }

  /** How one event shows in the table. */
  ghost predicate Shown(eps: map<nat, Episode>, e: Event) {
    && e.episodeId in eps
    && e.sequence <= eps[e.episodeId].lastSequence
    && SameSignal(eps[e.episodeId], e)
  }

  /** The table tells the set: it lists exactly the set's episodes, each with its outcome. */
  ghost predicate Tells(eps: map<nat, Episode>, s: set<Event>) {
    && (forall k | k in eps :: TellsEpisode(eps[k], s, k))
    && (forall e | e in s :: Shown(eps, e))
  }

  /** A set of events has at most one table: nothing of the delivery order remains in it. */
  lemma TellsIsUnique(a: map<nat, Episode>, b: map<nat, Episode>, s: set<Event>)
    requires Tells(a, s) && Tells(b, s)
    ensures a == b
  {
    forall k | k in a
      ensures k in b && a[k] == b[k]
    {
      TellsEpisodeAgrees(a, b, s, k);
    }
    forall k | k in b
      ensures k in a
    {
      TellsEpisodeAgrees(b, a, s, k);
    }
  }

  lemma TellsEpisodeAgrees(a: map<nat, Episode>, b: map<nat, Episode>, s: set<Event>, k: nat)
    requires Tells(a, s) && Tells(b, s) && k in a
    ensures k in b && a[k] == b[k]
  {
    assert TellsEpisode(a[k], s, k);
    var f :| f in s && f.episodeId == k && f.kind != Recovery;
    assert Shown(a, f) && Shown(b, f);
    assert TellsEpisode(b[k], s, k);
    var x :| x in s && x.episodeId == k && x.sequence == a[k].lastSequence;
    var y :| y in s && y.episodeId == k && y.sequence == b[k].lastSequence;
    assert Shown(b, x) && Shown(a, y);
  }

  /** An event keeps an untouched episode's entry true. */
  lemma OtherEpisodeKept(ep: Episode, s: set<Event>, e: Event, k: nat)
    requires TellsEpisode(ep, s, k) && e.episodeId != k
    ensures TellsEpisode(ep, s + {e}, k)
  {
    var f :| f in s && f.episodeId == k && f.kind != Recovery;
    assert f in s + {e};
    var x :| x in s && x.episodeId == k && x.sequence == ep.lastSequence;
    assert x in s + {e};
    if ep.recovered {
      var r :| r in s && r.episodeId == k && r.kind == Recovery;
      assert r in s + {e};
    }
  }

  /** A failure or escalation shows in its own episode's entry. */
  lemma FaultTold(eps: map<nat, Episode>, s: set<Event>, e: Event)
    requires Tells(eps, s) && e.kind != Recovery
    requires forall f | f in s :: Coherent(f, e)
    ensures TellsEpisode(Merge(eps, e)[e.episodeId], s + {e}, e.episodeId)
  {
    var k := e.episodeId;
    var t := s + {e};
    var after := Merge(eps, e)[k];
    assert e in t;
    assert HasFault(t, k);
    if k in eps {
      var ep := eps[k];
      assert TellsEpisode(ep, s, k);
      var x :| x in s && x.episodeId == k && x.sequence == ep.lastSequence;
      assert x in t;
      if ep.recovered {
        var r :| r in s && r.episodeId == k && r.kind == Recovery;
        assert r in t && Shown(eps, r) && Coherent(r, e);
      }
    } else {
      assert forall f | f in s :: Shown(eps, f);
      assert !HasRecovery(t, k);
    }
  }

  /** A recovery shows in its episode's entry: it outruns everything recorded so far. */
  lemma RecoveryTold(eps: map<nat, Episode>, s: set<Event>, e: Event)
    requires Tells(eps, s) && e.kind == Recovery && e.episodeId in eps && e !in s
    requires forall f | f in s :: Coherent(f, e)
    ensures e.sequence > eps[e.episodeId].lastSequence
    ensures TellsEpisode(Merge(eps, e)[e.episodeId], s + {e}, e.episodeId)
  {
    var k := e.episodeId;
    var t := s + {e};
    assert TellsEpisode(eps[k], s, k);
    var x :| x in s && x.episodeId == k && x.sequence == eps[k].lastSequence;
    assert Coherent(x, e);
    var f :| f in s && f.episodeId == k && f.kind != Recovery;
    assert f in t && e in t;
  }

  lemma ShownAfter(eps: map<nat, Episode>, s: set<Event>, e: Event, f: Event)
    requires Tells(eps, s) && f in s + {e}
    requires forall g | g in s :: Coherent(g, e)
    requires e.kind == Recovery ==> e.episodeId in eps && e !in s
    ensures Shown(Merge(eps, e), f)
  {
    if e.kind == Recovery {
      RecoveryTold(eps, s, e);
      assert TellsEpisode(eps[e.episodeId], s, e.episodeId);
      var g :| g in s && g.episodeId == e.episodeId && g.kind != Recovery;
      assert Shown(eps, g) && Coherent(g, e);
    } else if e.episodeId in eps {
      assert TellsEpisode(eps[e.episodeId], s, e.episodeId);
      var g :| g in s && g.episodeId == e.episodeId && g.kind != Recovery;
      assert Shown(eps, g) && Coherent(g, e);
      if eps[e.episodeId].recovered {
        var r :| r in s && r.episodeId == e.episodeId && r.kind == Recovery;
        assert Shown(eps, r) && Coherent(r, e);
      }
    }
    if f in s {
      assert Shown(eps, f);
    }
  }

  // ---- episodes apart from some --------------------------------------------------------------------

  /** The events of other episodes than these. */
  function Without(s: set<Event>, settled: set<nat>): set<Event> {
    set e | e in s && e.episodeId !in settled
  }

  /** As far as other episodes than these go, the table tells the set. */
  ghost predicate TellsBut(eps: map<nat, Episode>, s: set<Event>, settled: set<nat>) {
    Tells(eps - settled, Without(s, settled))
  }

  lemma TellsApart(eps: map<nat, Episode>, s: set<Event>, settled: set<nat>, k: nat)
    requires TellsBut(eps, s, settled) && k !in settled
    ensures k in eps ==> TellsEpisode(eps[k], s, k)
    ensures forall e | e in s && e.episodeId == k :: Shown(eps, e)
  {
    if k in eps {
      var t := Without(s, settled);
      assert TellsEpisode((eps - settled)[k], t, k);
      forall e | e in s && e.episodeId == k
        ensures e in t
      {
      }
    }
    forall e | e in s && e.episodeId == k
      ensures Shown(eps, e)
    {
      assert e in Without(s, settled) && Shown(eps - settled, e);
    }
  }

  /** What is true of all episodes is true of fewer. */
  lemma TellsFewer(eps: map<nat, Episode>, s: set<Event>, settled: set<nat>, more: set<nat>)
    requires TellsBut(eps, s, settled) && settled <= more
    ensures TellsBut(eps, s, more)
  {
    var t := Without(s, more);
    forall k | k in eps - more
      ensures TellsEpisode((eps - more)[k], t, k)
    {
      TellsApart(eps, s, settled, k);
      KeepsOthers(eps[k], s, more, k);
    }
    forall e | e in t
      ensures Shown(eps - more, e)
    {
      TellsApart(eps, s, settled, e.episodeId);
    }
  }

  lemma KeepsOthers(ep: Episode, s: set<Event>, settled: set<nat>, k: nat)
    requires TellsEpisode(ep, s, k) && k !in settled
    ensures TellsEpisode(ep, Without(s, settled), k)
  {
    var t := Without(s, settled);
    assert forall e | e in s && e.episodeId == k :: e in t;
  }

  lemma TellsAll(eps: map<nat, Episode>, s: set<Event>, settled: set<nat>)
    requires Tells(eps, s)
    ensures TellsBut(eps, s, settled)
  {
    assert eps - {} == eps && Without(s, {}) == s;
    TellsFewer(eps, s, {}, settled);
  }

  lemma MergeTellsBut(eps: map<nat, Episode>, s: set<Event>, settled: set<nat>, e: Event)
    requires TellsBut(eps, s, settled) && e !in s
    requires forall f | f in s :: Coherent(f, e)
    requires e.kind == Recovery ==> e.episodeId in eps
    ensures TellsBut(Merge(eps, e), s + {e}, settled)
  {
    hide Tells, Coherent;
    var fewer, t := eps - settled, Without(s, settled);
    if e.episodeId in settled {
      assert Merge(eps, e) - settled == fewer && Without(s + {e}, settled) == t;
    } else {
      MergeTells(fewer, t, e);
      assert Merge(eps, e) - settled == Merge(fewer, e) && Without(s + {e}, settled) == t + {e};
    }
  }

  /** One more event of a lawful set, in any position, keeps the table true. */
  lemma MergeTells(eps: map<nat, Episode>, s: set<Event>, e: Event)
    requires Tells(eps, s) && e !in s
    requires forall f | f in s :: Coherent(f, e)
    requires e.kind == Recovery ==> e.episodeId in eps
    ensures Tells(Merge(eps, e), s + {e})
  {
    var after := Merge(eps, e);
    forall k | k in after
      ensures TellsEpisode(after[k], s + {e}, k)
    {
      if k != e.episodeId {
        OtherEpisodeKept(eps[k], s, e, k);
      } else if e.kind == Recovery {
        RecoveryTold(eps, s, e);
      } else {
        FaultTold(eps, s, e);
      }
    }
    forall f | f in s + {e}
      ensures Shown(after, f)
    {
      ShownAfter(eps, s, e, f);
    }
  }
}
