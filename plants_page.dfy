/** The plants page (src/pages/Plants.tsx): the three counters `loadStats` shows for the signed-in user's
    plants. */
module PlantsPage {
  import opened Wrappers
  import opened PlantSchema

  /** A `plants` row as `loadStats` sees it: its owner and its status (null allowed). */
  datatype PlantRecord = PlantRecord(userId: string, status: Option<PlantStatus>)

  datatype Stats = Stats(total: nat, active: nat, harvested: nat)

  /** The statuses counted as active. */
  const ActiveStatuses: set<PlantStatus> := {Germinating, Vegetative, Flowering}

  /** `select('status').eq('user_id', id)`: the statuses of the user's plants, in table order. */
  function StatusesOf(plants: seq<PlantRecord>, userId: string): (r: seq<Option<PlantStatus>>)
    ensures |r| <= |plants|
  {
    if plants == [] then []
    else
      var rest := StatusesOf(plants[1..], userId);
      if plants[0].userId == userId then [plants[0].status] + rest else rest
  }

  /** `filter(p => wanted.includes(p.status)).length`: the statuses that are one of `wanted`. */
  function Count(statuses: seq<Option<PlantStatus>>, wanted: set<PlantStatus>): (n: nat)
    ensures n <= |statuses|
  {
    if statuses == [] then 0
    else (if statuses[0].Some? && statuses[0].value in wanted then 1 else 0) + Count(statuses[1..], wanted)
  }

  /** The counters for one query result. */
  function StatsOf(statuses: seq<Option<PlantStatus>>): Stats {
    Stats(|statuses|, Count(statuses, ActiveStatuses), Count(statuses, {Harvested}))
  }

  /** Counting two disjoint status sets separately is counting their union. */
  lemma {:induction false} CountUnion(statuses: seq<Option<PlantStatus>>, a: set<PlantStatus>, b: set<PlantStatus>)
    requires a !! b
    ensures Count(statuses, a) + Count(statuses, b) == Count(statuses, a + b)
  {
    if statuses != [] {
      CountUnion(statuses[1..], a, b);
    }
  }

  /** Counting appended rows adds their count. */
  lemma {:induction false} CountAppend(s: seq<Option<PlantStatus>>, t: seq<Option<PlantStatus>>, wanted: set<PlantStatus>)
    ensures Count(s + t, wanted) == Count(s, wanted) + Count(t, wanted)
  {
    if s == [] {
      assert s + t == t;
    } else {
      assert (s + t)[1..] == s[1..] + t;
      CountAppend(s[1..], t, wanted);
    }
  }

  /** Every status is counted once: active, harvested, discontinued and null together make the total. */
  lemma {:induction false} StatsPartition(statuses: seq<Option<PlantStatus>>)
    ensures var st := StatsOf(statuses);
      st.active + st.harvested + Count(statuses, {Discontinued}) + NullCount(statuses) == st.total
    ensures StatsOf(statuses).active + StatsOf(statuses).harvested <= StatsOf(statuses).total
  {
    CountUnion(statuses, ActiveStatuses, {Harvested});
    CountUnion(statuses, ActiveStatuses + {Harvested}, {Discontinued});
    assert ActiveStatuses + {Harvested} + {Discontinued} == {Germinating, Vegetative, Flowering, Harvested, Discontinued};
    AllStatuses(statuses);
  }

  /** The rows whose status is null. */
  function NullCount(statuses: seq<Option<PlantStatus>>): (n: nat)
    ensures n <= |statuses|
  {
    if statuses == [] then 0 else (if statuses[0].None? then 1 else 0) + NullCount(statuses[1..])
  }

  lemma {:induction false} AllStatuses(statuses: seq<Option<PlantStatus>>)
    ensures Count(statuses, {Germinating, Vegetative, Flowering, Harvested, Discontinued}) + NullCount(statuses) == |statuses|
  {
    if statuses != [] {
      AllStatuses(statuses[1..]);
      if statuses[0].Some? {
        var st := statuses[0].value;
        assert st.Germinating? || st.Vegetative? || st.Flowering? || st.Harvested? || st.Discontinued?;
      }
    }
  }

  /** A discontinued plant adds to the total only. */
  lemma DiscontinuedCountsOnlyInTotal(statuses: seq<Option<PlantStatus>>)
    ensures var before, after := StatsOf(statuses), StatsOf(statuses + [Some(Discontinued)]);
      after == Stats(before.total + 1, before.active, before.harvested)
  {
    CountAppend(statuses, [Some(Discontinued)], ActiveStatuses);
    CountAppend(statuses, [Some(Discontinued)], {Harvested});
  }

  /** The page's counters, all zero until the first load succeeds. */
  class Page {
    var stats: Stats

    constructor ()
      ensures stats == Stats(0, 0, 0)
    {
      stats := Stats(0, 0, 0);
    }

    /** `loadStats`: on a query error the counters are kept (the error is only logged); otherwise they
        are recomputed from the user's plants. */
    method LoadStats(plants: seq<PlantRecord>, userId: string, queryError: Option<string>)
      modifies this
      ensures queryError.Some? ==> stats == old(stats)
      ensures queryError.None? ==> stats == StatsOf(StatusesOf(plants, userId))
    {
      if queryError.Some? {
        return;
      }
      stats := StatsOf(StatusesOf(plants, userId));
    }
  }

  /** The total is the number of the user's plants: adding a plant of another user changes nothing. */
  lemma {:induction false} OtherUsersIgnored(plants: seq<PlantRecord>, userId: string, other: PlantRecord)
    requires other.userId != userId
    ensures StatusesOf(plants + [other], userId) == StatusesOf(plants, userId)
  {
    if plants != [] {
      assert (plants + [other])[1..] == plants[1..] + [other];
      OtherUsersIgnored(plants[1..], userId, other);
    }
  }

  /** A plant of the user adds its status at the end. */
  lemma {:induction false} OwnPlantCounted(plants: seq<PlantRecord>, userId: string, own: PlantRecord)
    requires own.userId == userId
    ensures StatusesOf(plants + [own], userId) == StatusesOf(plants, userId) + [own.status]
  {
    if plants != [] {
      assert (plants + [own])[1..] == plants[1..] + [own];
      OwnPlantCounted(plants[1..], userId, own);
    }
  }
}
