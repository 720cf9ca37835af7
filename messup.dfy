/** The mess-ups `MessUp` applies to the victim object and the checks each
    one is expected to trip (tasks/scrub_test.py:142-210), and the order the
    test runs them in (tasks/scrub_test.py:288-290). The commands themselves,
    the file backup and restore and the omap restore are left out: only the
    check tuples they yield are kept. */
module MessUp {
  import opened Results
  import opened Report
  import opened AttrScan
  import opened ObjChecker

  datatype MessUpKind = Remove | Append | Truncate | ChangeObj | RmOmap | AddOmap | ChangeOmap

  /** The mess-ups that go through the OSD admin socket and change the omap;
      the others rewrite the object's file. */
  predicate ChangesOmap(m: MessUpKind) {
    m == RmOmap || m == AddOmap || m == ChangeOmap
  }

  /** The checks each mess-up yields, in the order it yields them. Removing
      the file is the only way to trip `missing`; only appending or truncating
      changes the size; every file rewrite changes the data digest, and every
      omap change only the omap digest. */
  function ExpectedChecks(m: MessUpKind): (r: seq<CheckKind>)
    ensures |r| >= 1 && forall i, j :: 0 <= i < j < |r| ==> r[i] != r[j]
    ensures Missing in r <==> m == Remove
    ensures SizeMismatch in r <==> m == Append || m == Truncate
    ensures DataDigestMismatch in r <==> m == Append || m == Truncate || m == ChangeObj
    ensures OmapDigestMismatch in r <==> ChangesOmap(m)
    ensures ChangesOmap(m) ==> r == [OmapDigestMismatch]
  {
    match m
    case Remove => [Missing]
    case Append => [DataDigestMismatch, SizeMismatch]
    case Truncate => [DataDigestMismatch, SizeMismatch]
    case ChangeObj => [DataDigestMismatch]
    case RmOmap => [OmapDigestMismatch]
    case AddOmap => [OmapDigestMismatch]
    case ChangeOmap => [OmapDigestMismatch]
  }

  /** The order in which `test_list_inconsistent_obj` applies the mess-ups. */
  const TestOrder: seq<MessUpKind> := [RmOmap, AddOmap, ChangeOmap, Append, Truncate, ChangeObj, Remove]

  /** Every check some mess-up of `order` expects. */
  function ChecksOf(order: seq<MessUpKind>): set<CheckKind>
    decreases |order|
  {
    if order == [] then {}
    else (set k | k in ExpectedChecks(order[0])) + ChecksOf(order[1..])
  }

  /** The test applies every mess-up, each once. */
  lemma TestOrderAppliesEachOnce()
    ensures forall m: MessUpKind :: m in TestOrder
    ensures forall i, j :: 0 <= i < j < |TestOrder| ==> TestOrder[i] != TestOrder[j]
  {
    forall m: MessUpKind ensures m in TestOrder {
      match m
      case RmOmap => assert TestOrder[0] == m;
      case AddOmap => assert TestOrder[1] == m;
      case ChangeOmap => assert TestOrder[2] == m;
      case Append => assert TestOrder[3] == m;
      case Truncate => assert TestOrder[4] == m;
      case ChangeObj => assert TestOrder[5] == m;
      case Remove => assert TestOrder[6] == m;
    }
  }

  /** Between them, the mess-ups of the test exercise every check kind. */
  lemma TestOrderCoversEveryCheck()
    ensures forall k: CheckKind :: k in ChecksOf(TestOrder)
  {
    forall k: CheckKind ensures k in ChecksOf(TestOrder) {
      var i := match k
        case OmapDigestMismatch => 0
        case DataDigestMismatch => 3
        case SizeMismatch => 3
        case Missing => 6;
      ChecksOfCollects(TestOrder, i);
    }
  }

  lemma {:induction false} ChecksOfCollects(order: seq<MessUpKind>, i: nat)
    requires i < |order|
    ensures forall k :: k in ExpectedChecks(order[i]) ==> k in ChecksOf(order)
    decreases i
  {
    if i > 0 {
      ChecksOfCollects(order[1..], i - 1);
    }
  }

  /** A report as the cluster gives it after the object file was removed from
      OSD 0 of acting set [0, 1] passes every check the removal expects. */
  lemma RemovedObjectReportPasses()
    ensures var c := Checker(0, [0, 1], "benchmark_data");
            var inc := InconsistentObj(ObjectRef("benchmark_data", "head"),
                                       [map["osd" := Int(0), "missing" := Bool(true)],
                                        map["osd" := Int(1), "missing" := Bool(false)]],
                                       map["missing" := Bool(true)]);
            CheckReport(c, inc, ExpectedChecks(Remove)).Pass?
  {
    var c := Checker(0, [0, 1], "benchmark_data");
    var shards := [map["osd" := Int(0), "missing" := Bool(true)],
                   map["osd" := Int(1), "missing" := Bool(false)]];
    var inc := InconsistentObj(ObjectRef("benchmark_data", "head"), shards, map["missing" := Bool(true)]);
    assert InActing(c, Int(1)) by { assert PyEq(Int(1), Int(c.acting[1])); }
    assert IsVictim(c, shards[0]) && IsHealthy(c, shards[1]);
    assert shards[..1] == [shards[0]] && shards[..2] == shards && shards[..2][..1] == shards[..1];
    assert Scan(c, "missing", shards[..1]) == Ok(ScanState(Some(Bool(true)), None));
    assert Scan(c, "missing", shards) == Ok(ScanState(Some(Bool(true)), Some(Bool(false))));
    assert Run(c, Missing, inc).Pass?;
  }
}
