/** `InconsistentObjChecker._get_attrs` (tasks/scrub_test.py:232-258): one
    pass over the shards of a report that sorts them into the single damaged
    copy (the victim OSD's shard) and the healthy copies, which must all sit in
    the acting set and agree, and returns the damaged and the healthy value of
    one attribute. The loop keeps "not seen yet" apart from any value a shard
    may carry, including JSON `null` (the code as written conflates the two:
    see module AttrScanAsWritten); the asserts after the loop refuse a `null`
    value as the source's do. */
module AttrScan {
  import opened Results
  import opened Report

  /** The loop's two variables: the victim's value and the healthy value, each
      `None` until some shard provides it. */
  datatype ScanState = ScanState(bad: Option<Value>, good: Option<Value>)

  /** What `_get_attrs` returns: `(bad_attr, good_attr)`. */
  datatype AttrPair = AttrPair(bad: Value, good: Value)

  /** One iteration of the loop body, on shard `shard`. */
  function Step(c: Checker, attr: string, st: ScanState, shard: Shard): Result<ScanState, CheckError> {
    if "osd" !in shard then Err(ShardKeyMissing("osd"))
    else if attr !in shard then Err(ShardKeyMissing(attr))
    else if IsVictim(c, shard) then
      if st.bad.Some? then Err(MultipleVictimEntries)
      else Ok(st.(bad := Some(shard[attr])))
    else if !InActing(c, shard["osd"]) then Err(ShardNotActing)
    else if st.good.Some? && !PyEq(st.good.value, shard[attr]) then Err(MultipleGoodValues)
    else Ok(st.(good := Some(shard[attr])))
  }

  /** The loop run over `shards`: the state it ends in, or the first failing assert. */
  function Scan(c: Checker, attr: string, shards: seq<Shard>): Result<ScanState, CheckError>
    decreases |shards|
  {
    if shards == [] then Ok(ScanState(None, None))
    else
      match Scan(c, attr, shards[..|shards| - 1])
      case Err(e) => Err(e)
      case Ok(st) => Step(c, attr, st, shards[|shards| - 1])
  }

  /** The three asserts after the loop. `bad_attr is not None` also refuses
      a victim shard whose value is JSON `null`, and likewise for the
      healthy value. */
  function Finish(st: ScanState): Result<AttrPair, CheckError> {
    if st.bad.None? || st.bad.value == Null then Err(VictimValueNotFound)
    else if st.good.None? || st.good.value == Null then Err(GoodValueNotFound)
    else if PyEq(st.good.value, st.bad.value) then Err(IdenticalValues)
    else Ok(AttrPair(st.bad.value, st.good.value))
  }

  /** The whole of `_get_attrs`, as a function of the report's shards. */
  function Attrs(c: Checker, attr: string, shards: seq<Shard>): Result<AttrPair, CheckError> {
    match Scan(c, attr, shards)
    case Err(e) => Err(e)
    case Ok(st) => Finish(st)
  }

  // ---------------------------------------------------------------------------
  // What `_get_attrs` accepts, stated without the loop.

  /** Every shard carries `osd` and the attribute. */
  ghost predicate AllKeyed(attr: string, shards: seq<Shard>) {
    forall i :: 0 <= i < |shards| ==> "osd" in shards[i] && attr in shards[i]
  }

  /** Everything the loop checks: keys present, at most one victim shard,
      every healthy shard from the acting set, all healthy shards agreeing. */
  ghost predicate ScanAccepts(c: Checker, attr: string, shards: seq<Shard>) {
    && AllKeyed(attr, shards)
    && (forall i, j :: 0 <= i < j < |shards| && IsVictim(c, shards[i]) ==> !IsVictim(c, shards[j]))
    && (forall i :: 0 <= i < |shards| && IsHealthy(c, shards[i]) ==> InActing(c, shards[i]["osd"]))
    && (forall i, j :: 0 <= i < |shards| && 0 <= j < |shards| && IsHealthy(c, shards[i]) && IsHealthy(c, shards[j])
          ==> PyEq(shards[i][attr], shards[j][attr]))
  }

  /** The state the loop ends in, described by the shards it has seen. */
  ghost predicate ScanDescribes(c: Checker, attr: string, shards: seq<Shard>, st: ScanState) {
    && AllKeyed(attr, shards)
    && (st.bad.Some? <==> exists i :: 0 <= i < |shards| && IsVictim(c, shards[i]))
    && (forall i :: 0 <= i < |shards| && IsVictim(c, shards[i]) ==> st.bad == Some(shards[i][attr]))
    && (st.good.Some? <==> exists i :: 0 <= i < |shards| && IsHealthy(c, shards[i]))
    && (forall i :: 0 <= i < |shards| && IsHealthy(c, shards[i]) ==> st.good.Some? && PyEq(shards[i][attr], st.good.value))
    && (st.good.Some? ==> exists i :: 0 <= i < |shards| && IsHealthy(c, shards[i]) && st.good.value == shards[i][attr])
  }

  /** Everything `_get_attrs` demands of a report's shards. */
  ghost predicate AttrsAccepted(c: Checker, attr: string, shards: seq<Shard>) {
    && ScanAccepts(c, attr, shards)
    && (exists i :: 0 <= i < |shards| && IsVictim(c, shards[i]))
    && (exists i :: 0 <= i < |shards| && IsHealthy(c, shards[i]))
    && (forall i :: 0 <= i < |shards| && "osd" in shards[i] && attr in shards[i] ==> shards[i][attr] != Null)
    && (forall i, j :: 0 <= i < |shards| && 0 <= j < |shards| && IsVictim(c, shards[i]) && IsHealthy(c, shards[j])
          ==> !PyEq(shards[i][attr], shards[j][attr]))
  }

  /** `v` is the one and only shard from the victim OSD. */
  ghost predicate OnlyVictim(c: Checker, shards: seq<Shard>, v: int) {
    0 <= v < |shards| && IsVictim(c, shards[v])
    && forall j :: 0 <= j < |shards| && IsVictim(c, shards[j]) ==> j == v
  }

  /** What the loop accepts of a list it accepts of every prefix. */
  lemma AcceptsPrefix(c: Checker, attr: string, p: seq<Shard>, x: Shard)
    requires ScanAccepts(c, attr, p + [x])
    ensures ScanAccepts(c, attr, p)
  {
    var s := p + [x];
    assert forall i :: 0 <= i < |p| ==> s[i] == p[i];
  }

  lemma AcceptVictim(c: Checker, attr: string, p: seq<Shard>, x: Shard, st: ScanState)
    requires ScanAccepts(c, attr, p) && ScanDescribes(c, attr, p, st)
    requires "osd" in x && attr in x && IsVictim(c, x) && st.bad.None?
    ensures ScanAccepts(c, attr, p + [x])
    ensures ScanDescribes(c, attr, p + [x], st.(bad := Some(x[attr])))
  {
    var s := p + [x];
    assert forall i :: 0 <= i < |p| ==> s[i] == p[i];
    assert s[|p|] == x;
  }

  lemma AcceptHealthy(c: Checker, attr: string, p: seq<Shard>, x: Shard, st: ScanState)
    requires ScanAccepts(c, attr, p) && ScanDescribes(c, attr, p, st)
    requires "osd" in x && attr in x && IsHealthy(c, x) && InActing(c, x["osd"])
    requires st.good.Some? ==> PyEq(st.good.value, x[attr])
    ensures ScanAccepts(c, attr, p + [x])
    ensures ScanDescribes(c, attr, p + [x], st.(good := Some(x[attr])))
  {
    var s := p + [x];
    assert forall i :: 0 <= i < |p| ==> s[i] == p[i];
    assert s[|p|] == x;
    forall i | 0 <= i < |p| && IsHealthy(c, p[i])
      ensures PyEq(p[i][attr], x[attr]) && PyEq(x[attr], p[i][attr])
    {
      PyEqTrans(p[i][attr], st.good.value, x[attr]);
    }
  }

  lemma RejectSecondVictim(c: Checker, attr: string, p: seq<Shard>, x: Shard, st: ScanState)
    requires ScanDescribes(c, attr, p, st)
    requires IsVictim(c, x) && st.bad.Some?
    ensures !ScanAccepts(c, attr, p + [x])
  {
    var s := p + [x];
    var i :| 0 <= i < |p| && IsVictim(c, p[i]);
    assert s[i] == p[i] && s[|p|] == x;
  }

  lemma RejectDisagreement(c: Checker, attr: string, p: seq<Shard>, x: Shard, st: ScanState)
    requires ScanDescribes(c, attr, p, st)
    requires attr in x && IsHealthy(c, x) && st.good.Some? && !PyEq(st.good.value, x[attr])
    ensures !ScanAccepts(c, attr, p + [x])
  {
    var s := p + [x];
    var i :| 0 <= i < |p| && IsHealthy(c, p[i]) && st.good.value == p[i][attr];
    assert s[i] == p[i] && s[|p|] == x;
  }

  /** After a scan that has seen both kinds of shard, no shard reports `null`
      exactly when neither value in the state is `null`. */
  lemma NullFreeState(c: Checker, attr: string, shards: seq<Shard>, st: ScanState)
    requires ScanDescribes(c, attr, shards, st) && st.bad.Some? && st.good.Some?
    ensures (forall i :: 0 <= i < |shards| && "osd" in shards[i] && attr in shards[i] ==> shards[i][attr] != Null)
            <==> st.bad.value != Null && st.good.value != Null
  {
    var v :| 0 <= v < |shards| && IsVictim(c, shards[v]);
    var h :| 0 <= h < |shards| && IsHealthy(c, shards[h]) && st.good.value == shards[h][attr];
    assert st.bad.value == shards[v][attr];
    forall i | 0 <= i < |shards| && "osd" in shards[i] && attr in shards[i] && IsHealthy(c, shards[i])
      ensures shards[i][attr] == Null <==> st.good.value == Null
    {
      assert PyEq(shards[i][attr], st.good.value);
    }
  }

  /** The loop succeeds exactly on the shard lists `ScanAccepts` describes,
      and then its state is the one `ScanDescribes` gives. */
  lemma {:induction false} ScanCharacterized(c: Checker, attr: string, shards: seq<Shard>)
    ensures Scan(c, attr, shards).Ok? <==> ScanAccepts(c, attr, shards)
    ensures Scan(c, attr, shards).Ok? ==> ScanDescribes(c, attr, shards, Scan(c, attr, shards).value)
    decreases |shards|
  {
    if shards == [] { return; }
    var n := |shards| - 1;
    var p, x := shards[..n], shards[n];
    assert shards == p + [x];
    ScanCharacterized(c, attr, p);
    if ScanAccepts(c, attr, shards) { AcceptsPrefix(c, attr, p, x); }
    match Scan(c, attr, p)
    case Err(_) =>
    case Ok(st) =>
      if "osd" !in x || attr !in x {
        assert shards[n] == x;
      } else if IsVictim(c, x) {
        if st.bad.Some? {
          RejectSecondVictim(c, attr, p, x, st);
        } else {
          AcceptVictim(c, attr, p, x, st);
        }
      } else if !InActing(c, x["osd"]) {
        assert shards[n] == x && IsHealthy(c, shards[n]);
      } else if st.good.Some? && !PyEq(st.good.value, x[attr]) {
        RejectDisagreement(c, attr, p, x, st);
      } else {
        AcceptHealthy(c, attr, p, x, st);
      }
  }

  /** `_get_attrs` succeeds exactly when every shard carries `osd` and the
      attribute, exactly one shard comes from the victim OSD, at least one
      other shard exists, every other shard is from the acting set, no shard
      reports `null`, the other shards all agree, and they differ from the
      victim's; it then returns the victim shard's value as bad and a value
      the healthy shards agree on as good. */
  lemma AttrsCharacterized(c: Checker, attr: string, shards: seq<Shard>)
    ensures Attrs(c, attr, shards).Ok? <==> AttrsAccepted(c, attr, shards)
    ensures Attrs(c, attr, shards).Ok? ==>
              && AllKeyed(attr, shards)
              && (exists v :: OnlyVictim(c, shards, v) && Attrs(c, attr, shards).value.bad == shards[v][attr])
              && (exists i :: 0 <= i < |shards| && IsHealthy(c, shards[i]) && Attrs(c, attr, shards).value.good == shards[i][attr])
              && (forall i :: 0 <= i < |shards| && IsHealthy(c, shards[i]) ==> PyEq(shards[i][attr], Attrs(c, attr, shards).value.good))
              && !PyEq(Attrs(c, attr, shards).value.bad, Attrs(c, attr, shards).value.good)
              && Attrs(c, attr, shards).value.bad != Null && Attrs(c, attr, shards).value.good != Null
  {
    ScanCharacterized(c, attr, shards);
    var r := Attrs(c, attr, shards);
    if Scan(c, attr, shards).Ok? {
      var st := Scan(c, attr, shards).value;
      if st.bad.Some? && st.good.Some? {
        var v :| 0 <= v < |shards| && IsVictim(c, shards[v]);
        assert OnlyVictim(c, shards, v);
        NullFreeState(c, attr, shards, st);
        forall i, j | 0 <= i < |shards| && 0 <= j < |shards| && IsVictim(c, shards[i]) && IsHealthy(c, shards[j])
          ensures PyEq(shards[i][attr], shards[j][attr]) <==> PyEq(st.bad.value, st.good.value)
        {
          assert st.bad.value == shards[i][attr];
          if PyEq(shards[i][attr], shards[j][attr]) { PyEqTrans(st.bad.value, shards[j][attr], st.good.value); }
          if PyEq(st.bad.value, st.good.value) { PyEqTrans(shards[i][attr], st.good.value, shards[j][attr]); }
        }
        if r.Ok? {
          var h :| 0 <= h < |shards| && IsHealthy(c, shards[h]);
          assert !PyEq(shards[v][attr], shards[h][attr]);
        }
      }
    }
  }

  /** Once the loop has failed on a prefix, it fails the same way on the whole list. */
  lemma {:induction false} ScanErrorSticks(c: Checker, attr: string, shards: seq<Shard>, n: nat)
    requires n <= |shards| && Scan(c, attr, shards[..n]).Err?
    ensures Scan(c, attr, shards) == Scan(c, attr, shards[..n])
    decreases |shards|
  {
    if n < |shards| {
      var p := shards[..|shards| - 1];
      assert p[..n] == shards[..n];
      ScanErrorSticks(c, attr, p, n);
    } else {
      assert shards[..n] == shards;
    }
  }

  /** The intended loop of `_get_attrs`, imperative like the source: it
      returns what `Attrs` specifies. `Step`/`Scan`/`Attrs` are its
      specification; module AttrScanAsWritten repeats the pair for the code
      as written. */
  method GetAttrs(c: Checker, inc: InconsistentObj, attr: string) returns (r: Result<AttrPair, CheckError>)
    ensures r == Attrs(c, attr, inc.shards)
  {
    var shards := inc.shards;
    var bad: Option<Value> := None;
    var good: Option<Value> := None;
    var i := 0;
    while i < |shards|
      invariant 0 <= i <= |shards|
      invariant Scan(c, attr, shards[..i]) == Ok(ScanState(bad, good))
    {
      var shard := shards[i];
      assert shards[..i + 1][..i] == shards[..i] && shards[..i + 1][i] == shard;
      var failure: Option<CheckError> := None;
      if "osd" !in shard {
        failure := Some(ShardKeyMissing("osd"));
      } else if attr !in shard {
        failure := Some(ShardKeyMissing(attr));
      } else {
        var osd := shard["osd"];
        var value := shard[attr];
        if PyEq(osd, Int(c.osd)) {
          if bad.Some? {
            failure := Some(MultipleVictimEntries);
          } else {
            bad := Some(value);
          }
        } else if !InActing(c, osd) {
          failure := Some(ShardNotActing);
        } else if good.Some? && !PyEq(good.value, value) {
          failure := Some(MultipleGoodValues);
        } else {
          good := Some(value);
        }
      }
      if failure.Some? {
        ScanErrorSticks(c, attr, shards, i + 1);
        return Err(failure.value);
      }
      i := i + 1;
    }
    assert shards[..i] == shards;
    if bad.None? || bad.value == Null {
      return Err(VictimValueNotFound);
    }
    if good.None? || good.value == Null {
      return Err(GoodValueNotFound);
    }
    if PyEq(good.value, bad.value) {
      return Err(IdenticalValues);
    }
    return Ok(AttrPair(bad.value, good.value));
  }
}
