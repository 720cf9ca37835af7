# Scrub-report validation of the Ceph QA scrub test, in Dafny

This project models the self-contained logic of the `scrub_test` task of the
Ceph QA suite (`tasks/scrub_test.py`). The task damages one copy of an
object on one OSD in various ways. It deep-scrubs the placement group (PG)
and checks that the cluster reports the damage correctly. The model covers:

- `InconsistentObjChecker`. It validates one decoded "inconsistent object"
  record from `rados list-inconsistent-obj` against the victim OSD, the
  acting set and the object name: `__init__`, `basic_checks`, `run`,
  `_get_attrs` and the four check methods (`checker.dfy`, `attr_scan.dfy`).
- `_get_attrs` twice. `AttrScanAsWritten` is the loop as written, including
  its use of `None` as the "not seen yet" marker. `AttrScan` is the intended
  loop, and the checker uses it (see "## Findings").
- The table of checks each `MessUp` mess-up expects, and the order the test
  applies the mess-ups in (`messup.dfy`).
- The choice of the victim object file from a PG directory listing, and the
  decoding of its on-disk file name into an object name (`victim_object.dfy`).
- One pass of the search for the first PG that holds data (`victim_pg.dfy`).
- The verdict `deep_scrub` and `repair` draw from a PG state string once the
  scrub has finished (`scrub_state.dfy`).
- The Python `str` operations these rely on (`pystrings.dfy`).

A decoded report is a record (`Report.InconsistentObj`). Its shards are
maps from keys to JSON scalars (`Report.Value`). Python `==` on these scalars
is modelled as `Report.PyEq`, so `True == 1` holds as it does in Python.
`is True` is modelled as structural equality with `Bool(true)`. Every failing
`assert`, and every lookup in a shard or in the report's flags that would
raise, becomes a `Report.CheckError` value.

## Model

| member | source | states |
|---|---|---|
| `PyStrings.Find` | tasks/scrub_test.py:86 | `str.find` returns the lowest index where the needle occurs, and -1 exactly when it occurs nowhere |
| `PyStrings.Split` | tasks/scrub_test.py:51 | `split('\n')` gives at least one piece, no piece holds the separator, and joining the pieces gives the text back |
| `PyStrings.SplitJoin` | tasks/scrub_test.py:51 | splitting a joined list of separator-free lines gives those lines back |
| `PyStrings.SplitFirst` | tasks/scrub_test.py:56 | `split('__', 1)` unpacked into two names succeeds exactly when the separator occurs; the head is the text before its first occurrence |
| `VictimObject.FirstObjectFile` | tasks/scrub_test.py:51-53 | the chosen line is the first that does not start with `__`; there is none exactly when every line starts with `__` |
| `VictimObject.Unescape` | tasks/scrub_test.py:57 | replacing `\u` by `_` never lengthens the name and leaves no `\u` behind |
| `VictimObject.UnescapeEscape` | tasks/scrub_test.py:57 | unescaping recovers every backslash-free object name from its on-disk spelling |
| `VictimObject.ObjectNameOfFile` | tasks/scrub_test.py:56-57 | decoding a file name fails exactly when it holds no `__` |
| `VictimObject.EscapedNameIsHead` | tasks/scrub_test.py:55-57 | a file name built as escaped name, `__`, rest decodes to that name |
| `VictimObject.VictimObjectName` | tasks/scrub_test.py:50-58 | the chosen file is the first listed line not starting with `__`, and the search fails only when every line starts with `__`; the split fails exactly when that line holds no `__`; otherwise the name is the unescaped text before its first `__` and holds no `\u` |
| `PyStrings.SplitEndsEmpty` | tasks/scrub_test.py:51 | a text ending in the separator splits into pieces the last of which is empty |
| `VictimObject.NewlineEndedListing` | tasks/scrub_test.py:51-53 | for every listing ending in a newline the search for an object file finds a line, since the empty last line is never hidden |
| `VictimObject.TrailingNewlineListing` | tasks/scrub_test.py:51-56 | for the listing `"__head_0__1\n"`, whose one entry is hidden, the empty last line is chosen and the name split fails |
| `VictimObject.VictimObjectNameRoundTrip` | tasks/scrub_test.py:50-58 | a listing with hidden entries, then an object file, then anything, yields that file and the object's own name |
| `VictimPg.FindVictimPg` | tasks/scrub_test.py:17-28 | one pass returns the id and acting set of the first PG in list order with positive `num_bytes`, and nothing exactly when no PG has data |
| `ScrubState.ReadState` | tasks/scrub_test.py:77-88 | a state containing `scrubbing` is waited on; otherwise the PG is inconsistent exactly when `+inconsistent` occurs |
| `ScrubState.DeepScrubAndRepairDisagree` | tasks/scrub_test.py:82-107 | both steps wait on the same states; on a finished state exactly one of `deep_scrub` and `repair` passes |
| `ScrubState.ScrubbingStateExample` | tasks/scrub_test.py:82 | a deep scrub in progress is waited on |
| `ScrubState.InconsistentStateExample` | tasks/scrub_test.py:86 | `active+clean+inconsistent` is a finished, inconsistent state |
| `ScrubState.BareFlagExample` | tasks/scrub_test.py:86 | without its leading `+` the word `inconsistent` does not mark the PG inconsistent |
| `AttrScan.ScanCharacterized` | tasks/scrub_test.py:235-250 | the shard loop succeeds exactly when every shard has `osd` and the attribute, at most one shard is the victim's, every other shard is in the acting set and all others agree; its state then holds the victim's value and the agreed value |
| `AttrScan.AttrsCharacterized` | tasks/scrub_test.py:232-258 | `_get_attrs` succeeds exactly when, in addition, exactly one victim shard and at least one other shard exist, no shard reports `null` and the two values differ; bad is the victim shard's value and good a value all other shards agree with, neither of them `null` |
| `AttrScan.GetAttrs` | tasks/scrub_test.py:232-258 | the imperative loop, with early exits at the first failing assert, computes exactly the `_get_attrs` result characterised above |
| `AttrScanAsWritten.GetAttrsAsWritten` | tasks/scrub_test.py:232-258 | the loop as written, with `None` as its "not seen yet" marker, computes `RawAttrs` |
| `AttrScanAsWritten.RawAttrsAgrees` | tasks/scrub_test.py:242-253 | unless a `null` value is followed by a second victim shard or, among healthy shards, by another value, the code as written and the intended check give the same result, error for error |
| `AttrScanAsWritten.IntendedAcceptanceKept` | tasks/scrub_test.py:232-258 | every report the intended check accepts is accepted by the code as written with the same two values |
| `AttrScanAsWritten.NullVictimValueRefused` | tasks/scrub_test.py:242-252 | a report with a victim shard, all of whose victim shards report `null`, is refused by the code as written and by the intended check alike; whenever the loop completes, both refuse it as "not found" |
| `AttrScanAsWritten.SecondVictimShardAccepted` | tasks/scrub_test.py:242-245 | a victim shard reporting `null` lets a second victim shard through the code as written |
| `AttrScanAsWritten.DisagreeingHealthyShardAccepted` | tasks/scrub_test.py:247-250 | a healthy shard reporting `null` lets a disagreeing healthy shard through the code as written |
| `ObjChecker.NewChecker` | tasks/scrub_test.py:216-220 | the checker is built exactly when the victim OSD is a member of the acting set |
| `ObjChecker.PrimaryVictimAccepted` | tasks/scrub_test.py:362 | the test's choice of the acting set's first OSD as victim never makes the checker refuse |
| `ObjChecker.BasicChecks` | tasks/scrub_test.py:222-226 | passes exactly when the object name matches, the snap is `head` and there is one shard per acting OSD; otherwise fails with the error of the first of these asserts that fails |
| `ObjChecker.CheckNamed` | tasks/scrub_test.py:228-230 | the dispatch by name finds exactly the check kind with that method name |
| `ObjChecker.RunNamed` | tasks/scrub_test.py:228-230 | running a check by name runs the check of that name, `basic_checks` runs `basic_checks`, and any other name fails with `UnknownCheck` |
| `ObjChecker.RunCharacterized` | tasks/scrub_test.py:260-275 | a check passes exactly when its flag is True, `_get_attrs` accepts its fixed attribute, and for `missing` the victim shard's value is True itself |
| `ObjChecker.RunAll` | tasks/scrub_test.py:311-312 | running the checks in order passes exactly when each passes, and otherwise fails as the first failing check does |
| `ObjChecker.CheckReport` | tasks/scrub_test.py:307-312 | a report passes exactly when `basic_checks` and every expected check pass; a failing `basic_checks` decides the outcome |
| `MessUp.ExpectedChecks` | tasks/scrub_test.py:164-210 | only removal expects `missing`; only append and truncate expect `size_mismatch`; every file rewrite expects `data_digest_mismatch`; an omap change expects `omap_digest_mismatch` alone |
| `MessUp.TestOrderAppliesEachOnce` | tasks/scrub_test.py:288-290 | the test applies each of the seven mess-ups exactly once |
| `MessUp.TestOrderCoversEveryCheck` | tasks/scrub_test.py:288-291 | between them the applied mess-ups exercise all four check kinds |
| `MessUp.RemovedObjectReportPasses` | tasks/scrub_test.py:264-267 | a report for a removed object file, with the victim shard marked missing, passes every check removal expects |

## Left out

- `tasks/mds_journal_repair.py` as a whole: it stops and starts daemons, mounts clients and shells out to recovery tools whose logic is not part of this model.
- Remote execution and cluster commands (`osd_remote.run`, `raw_cluster_cmd`, `osd_admin_socket`, `do_rados`, `mon.run`) and the cluster set-up in `task`: they are I/O against a live cluster.
- The polling loops and their `time.sleep` calls in `wait_for_victim_pg`, `deep_scrub` and `repair`: only the decision of one poll is modelled.
- The wait in `task` until every OSD is up: it only polls the cluster, and none of it is modelled.
- The lookups `inc['object']`, `inc['object']['name']`, `inc['object']['snap']` and `inc['shards']`: the model makes them record fields that always exist, so the KeyError a report lacking one of them raises is not modelled.
- `corrupt_file`, `test_repair_corrupted_obj`, `test_repair_bad_omap`, the file backup and restore of `_test_with_file` and the omap changes of `MessUp`: they only run commands; the check tuples the mess-ups yield are kept.
- JSON parsing of the `rados list-inconsistent-*` output, and the driver's asserts on it (`pgs == [pg]`, `len(objs) == 1`): the model starts from one decoded report.
- Attribute values other than JSON `null`, booleans, integers and strings (floats, lists, objects) are not modelled; the object's name and snap are modelled as strings.
- The assertion messages are not modelled. The messages of the two "not found" asserts are swapped relative to their conditions: a missing victim value says "good ... not found". The model names its errors after the conditions (`VictimValueNotFound`, `GoodValueNotFound`).
- ObjChecker.Run: `Run`, `RunAll` and `CheckReport` use the intended `_get_attrs` (`AttrScan.Attrs`), so they refuse the reports described under "## Findings", which the source accepts. In the other direction they accept nothing the source refuses (`AttrScanAsWritten.IntendedAcceptanceKept`); for instance a report whose victim shards all report `null` is refused by both, and as "not found" whenever the loop completes (`AttrScanAsWritten.NullVictimValueRefused`).
- ObjChecker.CheckNamed: `getattr` would also find `basic_checks`, `run` and `_get_attrs`; the dispatch knows only the four check methods, and `ObjChecker.RunNamed` adds `basic_checks`. Calling `run` or `_get_attrs` with the report alone raises a TypeError in the source; `RunNamed` gives `UnknownCheck` for those names.
- The lookups `pg['stat_sum']['num_bytes']`, `pg['pgid']` and `pg['acting']` in `wait_for_victim_pg`: a PG's statistics are a record whose fields always exist, so their KeyError is not modelled.
- `find_victim_object` returns `os.path.join(data_path, osdfilename)`; the model keeps the bare file name, since the data path comes from the cluster's configuration.
- VictimObject.UnescapeEscape: the object store also escapes other characters, such as the backslash; the source decodes only `\u`, so the round trip is stated for names without a backslash.
- Logging.

## Findings

| source | as written | input that shows it | evidently intended | confidence | as-written member | corrected member |
|---|---|---|---|---|---|---|
| tasks/scrub_test.py:243 | `bad_attr is None` means both "no victim shard seen yet" and "the victim shard reported `null`" | victim OSD 0, acting set [0, 1], `size` values: OSD 0 `null`, OSD 0 4096, OSD 1 4095; the code returns (4096, 4095) | a second shard from the victim OSD is always refused ("multiple entries found for the given OSD") | low: needs a `null` attribute in the report; not executed | `AttrScanAsWritten.SecondVictimShardAccepted` | `AttrScan.AttrsCharacterized` |
| tasks/scrub_test.py:248 | `good_attr is None` means both "no healthy shard seen yet" and "the last healthy shard reported `null`" | victim OSD 0, acting set [0, 1, 2], `size` values: OSD 1 `null`, OSD 2 4095, OSD 0 4096; the code returns (4096, 4095) | all healthy shards agree on one value ("multiple good attrs found") | low: needs a `null` attribute in the report; not executed | `AttrScanAsWritten.DisagreeingHealthyShardAccepted` | `AttrScan.AttrsCharacterized` |
