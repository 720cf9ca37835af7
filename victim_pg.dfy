/** One pass of `wait_for_victim_pg` (tasks/scrub_test.py:17-29): pick the
    first placement group that already holds data. The polling (`time.sleep`
    and the retry) is left out; the model is a single scan of the statistics. */
module VictimPg {
  import opened Results

  /** The fields of one entry of `get_pg_stats()` the search reads. */
  datatype PgStat = PgStat(pgid: string, numBytes: int, acting: seq<int>)

  /** The search returns the id and acting set of the first entry, in list
      order, whose `stat_sum.num_bytes` is positive, and nothing when no entry
      has data. */
  method FindVictimPg(stats: seq<PgStat>) returns (r: Option<(string, seq<int>)>)
    ensures r.None? <==> forall i :: 0 <= i < |stats| ==> stats[i].numBytes <= 0
    ensures r.Some? ==> exists i :: 0 <= i < |stats| && stats[i].numBytes > 0
                                    && (forall j :: 0 <= j < i ==> stats[j].numBytes <= 0)
                                    && r.value == (stats[i].pgid, stats[i].acting)
  {
    var i := 0;
    while i < |stats|
      invariant 0 <= i <= |stats|
      invariant forall j :: 0 <= j < i ==> stats[j].numBytes <= 0
    {
      var pg := stats[i];
      if pg.numBytes > 0 {
        return Some((pg.pgid, pg.acting));
      }
      i := i + 1;
    }
    return None;
  }
}
