/** `InconsistentObjChecker` (tasks/scrub_test.py:213-275) and the way the
    test drives it for one report (tasks/scrub_test.py:307-312). The checker
    holds constant configuration, so it is a value; `run`'s dispatch through
    `getattr` becomes a match on a closed set of check kinds. */
module ObjChecker {
  import opened Results
  import opened Report
  import opened AttrScan

  /** `InconsistentObjChecker(osd, acting, obj_name)`: refused unless the
      victim OSD is a member of the acting set. */
  function NewChecker(osd: int, acting: seq<int>, obj: string): (r: Result<Checker, CheckError>)
    ensures r.Ok? <==> osd in acting
    ensures r.Ok? ==> r.value.osd == osd && r.value.acting == acting && r.value.obj == obj
    ensures r.Err? ==> r.error == VictimNotActing
  {
    if osd in acting then Ok(Checker(osd, acting, obj)) else Err(VictimNotActing)
  }

  /** The test damages the copy on the acting set's first OSD, so the checker
      it builds for a non-empty acting set is never refused. */
  lemma PrimaryVictimAccepted(acting: seq<int>, obj: string)
    requires acting != []
    ensures NewChecker(acting[0], acting, obj).Ok?
  {
  }

  /** `basic_checks`: the right object, its head, and one shard per acting OSD. */
  function BasicChecks(c: Checker, inc: InconsistentObj): (r: Outcome<CheckError>)
    ensures r.Pass? <==> inc.objectRef.name == c.obj && inc.objectRef.snap == "head" && |inc.shards| == |c.acting|
    ensures r == Fail(ObjectNameMismatch) <==> inc.objectRef.name != c.obj
    ensures r == Fail(SnapNotHead) <==> inc.objectRef.name == c.obj && inc.objectRef.snap != "head"
    ensures r == Fail(ShardCountMismatch) <==>
              inc.objectRef.name == c.obj && inc.objectRef.snap == "head" && |inc.shards| != |c.acting|
    ensures r.Fail? ==> r.error in {ObjectNameMismatch, SnapNotHead, ShardCountMismatch}
  {
    if inc.objectRef.name != c.obj then Fail(ObjectNameMismatch)
    else if inc.objectRef.snap != "head" then Fail(SnapNotHead)
    else if |inc.shards| != |c.acting| then Fail(ShardCountMismatch)
    else Pass
  }

  /** The four check methods a test may name. */
  datatype CheckKind = DataDigestMismatch | SizeMismatch | OmapDigestMismatch | Missing

  /** The method's name, which is also the report flag it requires to be True. */
  function CheckName(k: CheckKind): string {
    match k
    case DataDigestMismatch => "data_digest_mismatch"
    case SizeMismatch => "size_mismatch"
    case OmapDigestMismatch => "omap_digest_mismatch"
    case Missing => "missing"
  }

  /** The shard attribute the method compares across copies. */
  function AttrName(k: CheckKind): string {
    match k
    case DataDigestMismatch => "data_digest"
    case SizeMismatch => "size"
    case OmapDigestMismatch => "omap_digest"
    case Missing => "missing"
  }

  /** `getattr(self, check)` restricted to the check methods: the kind a name
      denotes, and nothing for any other name. */
  function CheckNamed(name: string): (r: Option<CheckKind>)
    ensures r.Some? ==> CheckName(r.value) == name
    ensures forall k :: CheckName(k) == name ==> r == Some(k)
  {
    if name == "data_digest_mismatch" then Some(DataDigestMismatch)
    else if name == "size_mismatch" then Some(SizeMismatch)
    else if name == "omap_digest_mismatch" then Some(OmapDigestMismatch)
    else if name == "missing" then Some(Missing)
    else None
  }

  /** `inc[flag] is True`. */
  predicate FlagRaised(inc: InconsistentObj, flag: string) {
    flag in inc.flags && inc.flags[flag] == Bool(true)
  }

  /** `run(check, inc)`: the check's flag must be True in the report, the
      attribute must pass `_get_attrs`, and `missing` also needs the victim's
      value to be True itself. */
  function Run(c: Checker, k: CheckKind, inc: InconsistentObj): Outcome<CheckError> {
    var flag := CheckName(k);
    if flag !in inc.flags then Fail(FlagAbsent(flag))
    else if inc.flags[flag] != Bool(true) then Fail(FlagNotTrue(flag))
    else
      match Attrs(c, AttrName(k), inc.shards)
      case Err(e) => Fail(e)
      case Ok(pair) =>
        if k == Missing && pair.bad != Bool(true) then Fail(RemovedShardNotMissing) else Pass
  }

  /** A check passes exactly when its flag is True, `_get_attrs` accepts its
      attribute, and, for `missing`, the victim shard reports exactly True
      (`1` compares equal to True but is not True). */
  lemma RunCharacterized(c: Checker, k: CheckKind, inc: InconsistentObj)
    ensures Run(c, k, inc).Pass? <==>
              && FlagRaised(inc, CheckName(k))
              && AttrsAccepted(c, AttrName(k), inc.shards)
              && (k == Missing ==> forall v :: 0 <= v < |inc.shards| && IsVictim(c, inc.shards[v])
                                             ==> inc.shards[v][AttrName(k)] == Bool(true))
  {
    AttrsCharacterized(c, AttrName(k), inc.shards);
    var r := Attrs(c, AttrName(k), inc.shards);
    if r.Ok? && k == Missing {
      var v :| OnlyVictim(c, inc.shards, v) && r.value.bad == inc.shards[v][AttrName(k)];
      assert forall w :: 0 <= w < |inc.shards| && IsVictim(c, inc.shards[w]) ==> w == v;
    }
  }

  /** `run(check, inc)` by name: `getattr(self, check)` then the call. The
      name `basic_checks` runs `basic_checks`; a name that denotes no method
      taking the report fails as the AttributeError would. */
  function RunNamed(c: Checker, name: string, inc: InconsistentObj): (r: Outcome<CheckError>)
    ensures forall k :: CheckName(k) == name ==> r == Run(c, k, inc)
    ensures name == "basic_checks" ==> r == BasicChecks(c, inc)
    ensures (forall k :: CheckName(k) != name) && name != "basic_checks" ==> r == Fail(UnknownCheck(name))
  {
    if name == "basic_checks" then BasicChecks(c, inc)
    else
      match CheckNamed(name)
      case None => Fail(UnknownCheck(name))
      case Some(k) => Run(c, k, inc)
  }

  /** `for check in checks: checker.run(check, inc)`: stops at the first check
      that fails. */
  function RunAll(c: Checker, checks: seq<CheckKind>, inc: InconsistentObj): (r: Outcome<CheckError>)
    ensures r.Pass? <==> forall j :: 0 <= j < |checks| ==> Run(c, checks[j], inc).Pass?
    ensures r.Fail? ==> exists j :: 0 <= j < |checks| && r == Run(c, checks[j], inc)
                                    && forall m :: 0 <= m < j ==> Run(c, checks[m], inc).Pass?
    decreases |checks|
  {
    if checks == [] then Pass
    else
      match Run(c, checks[0], inc)
      case Fail(e) => Fail(e)
      case Pass =>
        var rest := RunAll(c, checks[1..], inc);
        assert forall j :: 1 <= j < |checks| ==> checks[j] == checks[1..][j - 1];
        if rest.Fail? then
          var j :| 0 <= j < |checks| - 1 && rest == Run(c, checks[1..][j], inc)
                   && forall m :: 0 <= m < j ==> Run(c, checks[1..][m], inc).Pass?;
          assert rest == Run(c, checks[j + 1], inc);
          rest
        else rest
  }

  /** What the test does with one report: `basic_checks`, then every expected check. */
  function CheckReport(c: Checker, inc: InconsistentObj, checks: seq<CheckKind>): (r: Outcome<CheckError>)
    ensures r.Pass? <==> BasicChecks(c, inc).Pass? && forall j :: 0 <= j < |checks| ==> Run(c, checks[j], inc).Pass?
    ensures BasicChecks(c, inc).Fail? ==> r == BasicChecks(c, inc)
  {
    match BasicChecks(c, inc)
    case Fail(e) => Fail(e)
    case Pass => RunAll(c, checks, inc)
  }
}
