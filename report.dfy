/** The decoded output of `rados list-inconsistent-obj` for one object, as
    `InconsistentObjChecker` (tasks/scrub_test.py:213-275) reads it, and the
    checker's own configuration. JSON parsing is left out: a report arrives
    already decoded. */
module Report {

  /** A decoded JSON scalar. `Null` is JSON `null`, i.e. Python `None`. */
  datatype Value = Null | Bool(b: bool) | Int(i: int) | Str(text: string)

  /** The integer a Python bool or int stands for (`True == 1`). */
  function Number(v: Value): int
    requires v.Bool? || v.Int?
  {
    if v.Bool? then (if v.b then 1 else 0) else v.i
  }

  /** Python `==` on decoded scalars: bools compare as the integers 0 and 1,
      strings by content, `None` only to itself. */
  predicate PyEq(a: Value, b: Value) {
    if (a.Bool? || a.Int?) && (b.Bool? || b.Int?) then Number(a) == Number(b)
    else if a.Str? && b.Str? then a.text == b.text
    else a.Null? && b.Null?
  }

  /** Python `==` on these values is transitive (and symmetric). */
  lemma PyEqTrans(a: Value, b: Value, c: Value)
    requires PyEq(a, b) && PyEq(b, c)
    ensures PyEq(a, c) && PyEq(c, a)
  {
  }

  /** `True == 1` holds in Python, although the two are different values. */
  lemma PyEqAcrossTypes()
    ensures PyEq(Bool(true), Int(1)) && Bool(true) != Int(1)
    ensures !PyEq(Null, Int(0)) && !PyEq(Str("1"), Int(1))
  {
  }

  /** One entry of `inc['shards']`: a JSON object. */
  type Shard = map<string, Value>

  /** `inc['object']`: the object's name and snapshot. */
  datatype ObjectRef = ObjectRef(name: string, snap: string)

  /** One inconsistent object: `inc['object']`, `inc['shards']`, and the other
      top-level keys (the error flags such as `data_digest_mismatch`). */
  datatype InconsistentObj = InconsistentObj(objectRef: ObjectRef, shards: seq<Shard>, flags: map<string, Value>)

  /** What `InconsistentObjChecker.__init__` stores: the OSD whose copy was
      damaged, the acting set of the placement group and the object name. */
  datatype Checker = Checker(osd: int, acting: seq<int>, obj: string)

  /** Why a check fails: one constructor per `assert` (or per dictionary
      lookup that would raise) in the checker. */
  datatype CheckError =
    | VictimNotActing          // __init__: the OSD is not in the acting set
    | ObjectNameMismatch       // basic_checks: wrong object
    | SnapNotHead              // basic_checks: not the head object
    | ShardCountMismatch       // basic_checks: one shard per acting OSD expected
    | ShardKeyMissing(key: string)  // _get_attrs: a shard lacks `osd` or the attribute
    | MultipleVictimEntries    // _get_attrs: the victim OSD reported twice
    | ShardNotActing           // _get_attrs: a shard from an OSD outside the acting set
    | MultipleGoodValues       // _get_attrs: the healthy shards disagree
    | VictimValueNotFound      // _get_attrs: no shard from the victim OSD
    | GoodValueNotFound        // _get_attrs: no healthy shard
    | IdenticalValues          // _get_attrs: the victim's value equals the healthy one
    | FlagAbsent(flag: string)   // check methods: `inc[flag]` raises KeyError
    | FlagNotTrue(flag: string)  // check methods: `inc[flag] is True` fails
    | RemovedShardNotMissing   // missing: the victim's `missing` is not True
    | UnknownCheck(name: string) // run: `getattr` finds no check method of that name

  /** The shard is the damaged copy: its `osd` equals the victim OSD. */
  predicate IsVictim(c: Checker, shard: Shard) {
    "osd" in shard && PyEq(shard["osd"], Int(c.osd))
  }

  /** The shard comes from any other OSD. */
  predicate IsHealthy(c: Checker, shard: Shard) {
    "osd" in shard && !PyEq(shard["osd"], Int(c.osd))
  }

  /** Python `osd in self.acting`. */
  predicate InActing(c: Checker, osd: Value) {
    exists k :: 0 <= k < |c.acting| && PyEq(osd, Int(c.acting[k]))
  }
}
