/** `_get_attrs` exactly as written (tasks/scrub_test.py:232-258). Its two
    loop variables start as `None` and the tests `bad_attr is None` and
    `good_attr is None` read `None` as "no shard seen yet"; but a shard whose
    attribute is JSON `null` also stores `None`. After such a shard a second
    shard from the victim OSD passes the "multiple entries" assert, and a
    healthy shard with a different value passes the "multiple good attrs"
    assert. The checker uses module AttrScan, which keeps the two apart; this
    module pins the discrepancy down. The two modules mirror each other:
    `RawStep`/`RawScan`/`RawAttrs` and `GetAttrsAsWritten` here are the code
    as written, `Step`/`Scan`/`Attrs` and `GetAttrs` in AttrScan the intended
    loop, and `RawAttrsAgrees` ties the two together. */
module AttrScanAsWritten {
  import opened Results
  import opened Report
  import AttrScan

  /** The loop's two variables as Python holds them: `Null` is `None`. */
  datatype RawState = RawState(bad: Value, good: Value)

  function RawStep(c: Checker, attr: string, st: RawState, shard: Shard): Result<RawState, CheckError> {
    if "osd" !in shard then Err(ShardKeyMissing("osd"))
    else if attr !in shard then Err(ShardKeyMissing(attr))
    else if IsVictim(c, shard) then
      if st.bad != Null then Err(MultipleVictimEntries)
      else Ok(st.(bad := shard[attr]))
    else if !InActing(c, shard["osd"]) then Err(ShardNotActing)
    else if st.good != Null && !PyEq(st.good, shard[attr]) then Err(MultipleGoodValues)
    else Ok(st.(good := shard[attr]))
  }

  function RawScan(c: Checker, attr: string, shards: seq<Shard>): Result<RawState, CheckError>
    decreases |shards|
  {
    if shards == [] then Ok(RawState(Null, Null))
    else
      match RawScan(c, attr, shards[..|shards| - 1])
      case Err(e) => Err(e)
      case Ok(st) => RawStep(c, attr, st, shards[|shards| - 1])
  }

  function RawFinish(st: RawState): Result<AttrScan.AttrPair, CheckError> {
    if st.bad == Null then Err(VictimValueNotFound)
    else if st.good == Null then Err(GoodValueNotFound)
    else if PyEq(st.good, st.bad) then Err(IdenticalValues)
    else Ok(AttrScan.AttrPair(st.bad, st.good))
  }

  function RawAttrs(c: Checker, attr: string, shards: seq<Shard>): Result<AttrScan.AttrPair, CheckError> {
    match RawScan(c, attr, shards)
    case Err(e) => Err(e)
    case Ok(st) => RawFinish(st)
  }

  lemma {:induction false} RawScanErrorSticks(c: Checker, attr: string, shards: seq<Shard>, n: nat)
    requires n <= |shards| && RawScan(c, attr, shards[..n]).Err?
    ensures RawScan(c, attr, shards) == RawScan(c, attr, shards[..n])
    decreases |shards|
  {
    if n < |shards| {
      var p := shards[..|shards| - 1];
      assert p[..n] == shards[..n];
      RawScanErrorSticks(c, attr, p, n);
    } else {
      assert shards[..n] == shards;
    }
  }

  /** The loop with `None` as its "not seen yet" marker; it computes `RawAttrs`. */
  method GetAttrsAsWritten(c: Checker, inc: InconsistentObj, attr: string) returns (r: Result<AttrScan.AttrPair, CheckError>)
    ensures r == RawAttrs(c, attr, inc.shards)
  {
    var shards := inc.shards;
    var bad: Value := Null;
    var good: Value := Null;
    var i := 0;
    while i < |shards|
      invariant 0 <= i <= |shards|
      invariant RawScan(c, attr, shards[..i]) == Ok(RawState(bad, good))
    {
      var shard := shards[i];
      assert shards[..i + 1][..i] == shards[..i] && shards[..i + 1][i] == shard;
      var failure: Option<CheckError> := None;
      if "osd" !in shard {
        failure := Some(ShardKeyMissing("osd"));
      } else if attr !in shard {
        failure := Some(ShardKeyMissing(attr));
      } else {
        var osd := shard["osd"];
        var value := shard[attr];
        if PyEq(osd, Int(c.osd)) {
          if bad != Null {
            failure := Some(MultipleVictimEntries);
          } else {
            bad := value;
          }
        } else if !InActing(c, osd) {
          failure := Some(ShardNotActing);
        } else if good != Null && !PyEq(good, value) {
          failure := Some(MultipleGoodValues);
        } else {
          good := value;
        }
      }
      if failure.Some? {
        RawScanErrorSticks(c, attr, shards, i + 1);
        return Err(failure.value);
      }
      i := i + 1;
    }
    assert shards[..i] == shards;
    if bad == Null {
      return Err(VictimValueNotFound);
    }
    if good == Null {
      return Err(GoodValueNotFound);
    }
    if PyEq(good, bad) {
      return Err(IdenticalValues);
    }
    return Ok(AttrScan.AttrPair(bad, good));
  }

  // ---------------------------------------------------------------------------
  // Where the code as written and the intended check part.

  /** No shard reporting `null` is followed by what the `None` marker then
      hides: a second shard from the victim OSD after a victim shard with
      `null`, or a healthy shard with another value after a healthy shard
      with `null`. In particular this holds when no shard reports `null`. */
  ghost predicate NullsHideNothing(c: Checker, attr: string, shards: seq<Shard>) {
    forall i, j :: 0 <= i < j < |shards| && attr in shards[i] && shards[i][attr] == Null ==>
      && (IsVictim(c, shards[i]) ==> !IsVictim(c, shards[j]))
      && (IsHealthy(c, shards[i]) && IsHealthy(c, shards[j]) && attr in shards[j] ==> shards[j][attr] == Null)
  }

  /** The raw value standing for an intended one: `None` is stored as `Null`. */
  function Flat(v: Option<Value>): Value {
    if v.None? then Null else v.value
  }

  /** The raw state stands for the intended one with `None` stored as `Null`. */
  ghost predicate SameState(raw: RawState, st: AttrScan.ScanState) {
    raw.bad == Flat(st.bad) && raw.good == Flat(st.good)
  }

  /** One iteration on shard `x` after the shards `p`: from standing states
      the two loops take the same branch, unless a `null` in `p` hides `x`. */
  lemma StepAgrees(c: Checker, attr: string, p: seq<Shard>, x: Shard, raw: RawState, st: AttrScan.ScanState)
    requires AttrScan.ScanDescribes(c, attr, p, st) && SameState(raw, st)
    requires forall i :: 0 <= i < |p| && attr in p[i] && p[i][attr] == Null ==>
               && (IsVictim(c, p[i]) ==> !IsVictim(c, x))
               && (IsHealthy(c, p[i]) && IsHealthy(c, x) && attr in x ==> x[attr] == Null)
    ensures RawStep(c, attr, raw, x).Ok? <==> AttrScan.Step(c, attr, st, x).Ok?
    ensures RawStep(c, attr, raw, x).Err? ==> RawStep(c, attr, raw, x).error == AttrScan.Step(c, attr, st, x).error
    ensures RawStep(c, attr, raw, x).Ok? ==> SameState(RawStep(c, attr, raw, x).value, AttrScan.Step(c, attr, st, x).value)
  {
    if "osd" in x && attr in x {
      if IsVictim(c, x) && st.bad.Some? {
        var i :| 0 <= i < |p| && IsVictim(c, p[i]);
        assert st.bad.value == p[i][attr];
      }
      if IsHealthy(c, x) && st.good.Some? {
        var i :| 0 <= i < |p| && IsHealthy(c, p[i]) && st.good.value == p[i][attr];
        assert st.good.value == Null ==> x[attr] == Null;
      }
    }
  }

  lemma {:induction false} RawScanAgrees(c: Checker, attr: string, shards: seq<Shard>)
    requires NullsHideNothing(c, attr, shards)
    ensures RawScan(c, attr, shards).Ok? <==> AttrScan.Scan(c, attr, shards).Ok?
    ensures RawScan(c, attr, shards).Err? ==> RawScan(c, attr, shards).error == AttrScan.Scan(c, attr, shards).error
    ensures RawScan(c, attr, shards).Ok? ==> SameState(RawScan(c, attr, shards).value, AttrScan.Scan(c, attr, shards).value)
    decreases |shards|
  {
    if shards != [] {
      var n := |shards| - 1;
      var p, x := shards[..n], shards[n];
      assert forall i :: 0 <= i < n ==> p[i] == shards[i];
      RawScanAgrees(c, attr, p);
      AttrScan.ScanCharacterized(c, attr, p);
      if AttrScan.Scan(c, attr, p).Ok? {
        StepAgrees(c, attr, p, x, RawScan(c, attr, p).value, AttrScan.Scan(c, attr, p).value);
      }
    }
  }

  /** Wherever a `null` hides nothing the code as written computes exactly
      the intended check, error for error. */
  lemma RawAttrsAgrees(c: Checker, attr: string, shards: seq<Shard>)
    requires NullsHideNothing(c, attr, shards)
    ensures RawAttrs(c, attr, shards) == AttrScan.Attrs(c, attr, shards)
  {
    RawScanAgrees(c, attr, shards);
  }

  /** Every report the intended check accepts, the code as written accepts
      too, with the same two values; the two differ only on reports that the
      code as written accepts and the intended check refuses. */
  lemma IntendedAcceptanceKept(c: Checker, attr: string, shards: seq<Shard>)
    ensures AttrScan.Attrs(c, attr, shards).Ok? ==> RawAttrs(c, attr, shards) == AttrScan.Attrs(c, attr, shards)
  {
    AttrScan.AttrsCharacterized(c, attr, shards);
    if AttrScan.Attrs(c, attr, shards).Ok? {
      assert NullsHideNothing(c, attr, shards);
      RawAttrsAgrees(c, attr, shards);
    }
  }

  /** While every victim shard seen reports `null`, the code as written keeps
      `bad_attr` at `None`. */
  lemma {:induction false} RawBadStaysNull(c: Checker, attr: string, shards: seq<Shard>)
    requires forall i :: 0 <= i < |shards| && IsVictim(c, shards[i]) && attr in shards[i] ==> shards[i][attr] == Null
    ensures RawScan(c, attr, shards).Ok? ==> RawScan(c, attr, shards).value.bad == Null
    decreases |shards|
  {
    if shards != [] {
      var n := |shards| - 1;
      assert forall i :: 0 <= i < n ==> shards[..n][i] == shards[i];
      RawBadStaysNull(c, attr, shards[..n]);
    }
  }

  /** A report whose victim shards all report `null` is refused by the code as
      written and by the intended check alike; once the loop has completed,
      both refuse it as "not found". */
  lemma NullVictimValueRefused(c: Checker, attr: string, shards: seq<Shard>)
    requires exists i :: 0 <= i < |shards| && IsVictim(c, shards[i])
    requires forall i :: 0 <= i < |shards| && IsVictim(c, shards[i]) && attr in shards[i] ==> shards[i][attr] == Null
    ensures RawAttrs(c, attr, shards).Err? && AttrScan.Attrs(c, attr, shards).Err?
    ensures RawScan(c, attr, shards).Ok? ==> RawAttrs(c, attr, shards) == Err(VictimValueNotFound)
    ensures AttrScan.Scan(c, attr, shards).Ok? ==> AttrScan.Attrs(c, attr, shards) == Err(VictimValueNotFound)
  {
    RawBadStaysNull(c, attr, shards);
    AttrScan.ScanCharacterized(c, attr, shards);
    AttrScan.AttrsCharacterized(c, attr, shards);
  }

  /** A victim shard reporting `null` lets a second victim shard through:
      the code as written accepts the report, the intended check refuses it. */
  lemma SecondVictimShardAccepted()
    ensures var c := Checker(0, [0, 1], "obj");
            var shards := [map["osd" := Int(0), "size" := Null],
                           map["osd" := Int(0), "size" := Int(4096)],
                           map["osd" := Int(1), "size" := Int(4095)]];
            && RawAttrs(c, "size", shards) == Ok(AttrScan.AttrPair(Int(4096), Int(4095)))
            && AttrScan.Attrs(c, "size", shards) == Err(MultipleVictimEntries)
  {
    var c := Checker(0, [0, 1], "obj");
    var shards := [map["osd" := Int(0), "size" := Null],
                   map["osd" := Int(0), "size" := Int(4096)],
                   map["osd" := Int(1), "size" := Int(4095)]];
    assert InActing(c, Int(1)) by { assert PyEq(Int(1), Int(c.acting[1])); }
    assert IsVictim(c, shards[0]) && IsVictim(c, shards[1]) && IsHealthy(c, shards[2]);
    assert shards[..1] == [shards[0]] && shards[..2][..1] == shards[..1];
    assert shards[..3] == shards && shards[..3][..2] == shards[..2];
    assert RawScan(c, "size", shards[..1]) == Ok(RawState(Null, Null));
    assert RawScan(c, "size", shards[..2]) == Ok(RawState(Int(4096), Null));
    assert RawScan(c, "size", shards) == Ok(RawState(Int(4096), Int(4095)));
    assert AttrScan.Scan(c, "size", shards[..1]) == Ok(AttrScan.ScanState(Some(Null), None));
    assert AttrScan.Scan(c, "size", shards[..2]) == Err(MultipleVictimEntries);
    AttrScan.ScanErrorSticks(c, "size", shards, 2);
  }

  /** A healthy shard reporting `null` lets a disagreeing healthy shard
      through: the code as written accepts the report, the intended check
      refuses it. */
  lemma DisagreeingHealthyShardAccepted()
    ensures var c := Checker(0, [0, 1, 2], "obj");
            var shards := [map["osd" := Int(1), "size" := Null],
                           map["osd" := Int(2), "size" := Int(4095)],
                           map["osd" := Int(0), "size" := Int(4096)]];
            && RawAttrs(c, "size", shards) == Ok(AttrScan.AttrPair(Int(4096), Int(4095)))
            && AttrScan.Attrs(c, "size", shards) == Err(MultipleGoodValues)
  {
    var c := Checker(0, [0, 1, 2], "obj");
    var shards := [map["osd" := Int(1), "size" := Null],
                   map["osd" := Int(2), "size" := Int(4095)],
                   map["osd" := Int(0), "size" := Int(4096)]];
    assert InActing(c, Int(1)) by { assert PyEq(Int(1), Int(c.acting[1])); }
    assert InActing(c, Int(2)) by { assert PyEq(Int(2), Int(c.acting[2])); }
    assert IsHealthy(c, shards[0]) && IsHealthy(c, shards[1]) && IsVictim(c, shards[2]);
    assert shards[..1] == [shards[0]] && shards[..2][..1] == shards[..1];
    assert shards[..3] == shards && shards[..3][..2] == shards[..2];
    assert RawScan(c, "size", shards[..1]) == Ok(RawState(Null, Null));
    assert RawScan(c, "size", shards[..2]) == Ok(RawState(Null, Int(4095)));
    assert RawScan(c, "size", shards) == Ok(RawState(Int(4096), Int(4095)));
    assert AttrScan.Scan(c, "size", shards[..1]) == Ok(AttrScan.ScanState(None, Some(Null)));
    assert AttrScan.Scan(c, "size", shards[..2]) == Err(MultipleGoodValues);
    AttrScan.ScanErrorSticks(c, "size", shards, 2);
  }
}
