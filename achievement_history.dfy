/** The in-memory status timeline per achievement.

    Entries are kept per achievement id in the order they were added. Readers
    get a copy, so what they do with it never reaches the manager. The lock is
    not modelled. */
module AchievementHistory {
  import opened Identifiers
  import opened Records

  type History = map<Uuid, seq<StatusLog>>

  /** Some key of a non-empty history; the total below is the same whichever
      key is taken first (TotalWithout). */
  ghost function Pick(h: History): (k: Uuid)
    requires h != map[]
    ensures k in h
  {
    var k :| k in h; k
  }

  /** The number of entries over all achievements. */
  ghost function Total(h: History): nat
    decreases |h|
  {
    if h == map[] then 0
    else
      var k := Pick(h);
      |h[k]| + Total(h - {k})
  }

  lemma MapRemoveSize(h: History, k: Uuid)
    requires k in h
    ensures |h - {k}| == |h| - 1
  {
    assert h.Keys == (h - {k}).Keys + {k};
  }

  /** The total separates at any key, not just at the one Total picks. */
  lemma {:induction false} TotalWithout(h: History, k: Uuid)
    requires k in h
    ensures Total(h) == |h[k]| + Total(h - {k})
    decreases |h|
  {
    var j := Pick(h);
    if j != k {
      MapRemoveSize(h, j);
      MapRemoveSize(h, k);
      TotalWithout(h - {j}, k);
      TotalWithout(h - {k}, j);
      assert h - {j} - {k} == h - {k} - {j};
    }
  }

  /** One more entry for an achievement raises the total by exactly one. */
  lemma AppendRaisesTotal(h: History, e: StatusLog)
    ensures Total(h[e.achievementId := (if e.achievementId in h then h[e.achievementId] else []) + [e]]) == Total(h) + 1
  {
    var k := e.achievementId;
    var h' := h[k := (if k in h then h[k] else []) + [e]];
    TotalWithout(h', k);
    if k in h {
      TotalWithout(h, k);
      assert h' - {k} == h - {k};
    } else {
      assert h' - {k} == h;
    }
  }

  /** Clearing an achievement lowers the total by the length of its timeline. */
  lemma ClearLowersTotal(h: History, k: Uuid)
    ensures Total(h - {k}) == Total(h) - (if k in h then |h[k]| else 0)
  {
    if k in h {
      TotalWithout(h, k);
    } else {
      assert h - {k} == h;
    }
  }

  /** The entries of the achievements in `keys`. */
  ghost function Restricted(h: History, keys: set<Uuid>): History {
    map k | k in h && k in keys :: h[k]
  }

  class AchievementHistoryManager {
    var history: History

    constructor ()
      ensures history == map[]
      ensures Total(history) == 0
    {
      history := map[];
    }

    /** The timeline of an achievement; none yet is the empty timeline. */
    function Entries(id: Uuid): seq<StatusLog>
      reads this
    {
      if id in history then history[id] else []
    }

    method AddEntry(entry: StatusLog)
      modifies this
      ensures history == old(history)[entry.achievementId := old(Entries(entry.achievementId)) + [entry]]
      ensures Total(history) == Total(old(history)) + 1
    {
      AppendRaisesTotal(history, entry);
      if entry.achievementId !in history {
        history := history[entry.achievementId := []];
      }
      history := history[entry.achievementId := history[entry.achievementId] + [entry]];
    }

    /** A fresh array holding the timeline, in insertion order. */
    method GetHistory(id: Uuid) returns (result: array<StatusLog>)
      ensures fresh(result)
      ensures result[..] == Entries(id)
    {
      if id !in history {
        return new StatusLog[0];
      }
      var entries := history[id];
      result := new StatusLog[|entries|](i requires 0 <= i < |entries| => entries[i]);
    }

    method ClearHistory(id: Uuid)
      modifies this
      ensures history == old(history) - {id}
      ensures Entries(id) == []
      ensures Total(history) == Total(old(history)) - |old(Entries(id))|
    {
      ClearLowersTotal(history, id);
      history := history - {id};
    }

    method GetTotalEntries() returns (total: nat)
      ensures total == Total(history)
    {
      total := 0;
      var pending := history.Keys;
      assert Restricted(history, pending) == history;
      while pending != {}
        invariant pending <= history.Keys
        invariant total + Total(Restricted(history, pending)) == Total(history)
        decreases pending
      {
        var id :| id in pending;
        TotalWithout(Restricted(history, pending), id);
        assert Restricted(history, pending) - {id} == Restricted(history, pending - {id});
        total := total + |history[id]|;
        pending := pending - {id};
      }
      assert Restricted(history, pending) == map[];
    }
  }
}
