# dpipe `subprocesses`: a model in Dafny

`subprocesses(template, iterable)` in `dpipe.py` runs one child process per item.
Each child's command comes from a template: a list of literal arguments and
`Dummy` placeholder markers. The function does three things in order:

1. **Sanity checks.** The items must be all strings or all tuples; anything
   else raises `TypeError`. A string batch needs exactly one placeholder. A
   tuple batch needs every tuple as long as the first, and that length must
   equal the placeholder count. Each failure raises `AssertionError`.
2. **Launch.** It computes `dummy_indices`, the placeholder positions from
   left to right. For each item it copies the template and overwrites those
   positions in place. A string goes into every placeholder. A tuple's fields
   are paired with the positions as `zip` pairs them. The command is started
   and appended to a handler list.
3. **Join.** It waits on the handlers in launch order. At the first non-zero
   exit code it raises `CalledProcessError` with that code and that command.

The model has one module per stage:

- `Outcomes` (outcomes.dfy): the exceptions as an `Error` datatype, plus
  `Result` and `Outcome`.
- `Templates` (templates.dfy): `Token` (`Lit` or `Dummy`), `DummyCount`,
  `DummyIndices`, and the pure definitions the loops are checked against:
  - `Substitute`: walk the template and give the n-th placeholder the n-th
    value.
  - `SubstituteAll`: every placeholder gets the string.
  - `Overwrite`: the same in-place writes, expressed as a value.
- `Sanity` (sanity.dfy): `Item` (`Str`, `Tup`, or `Other` for any other Python
  object) and `Validate`, the checks in source order.
- `Build` (build.dfy): `Commands`, the command list without launching (what
  the tests read through `run=False`). Also `FillFromString` and
  `FillFromTuple`, the copy-and-overwrite loop bodies over an `array`.
- `Launch` (launch.dfy): the two launch loops, the wait loop `WaitAll`, and
  `Subprocesses`, which chains the three stages.
- `Scenarios` (scenarios.dfy): the unit tests of `test_dpipe.py`, stated as
  lemmas.

The model follows the code in three places where other behaviour might be expected:

- The join does not wait on every child, and it does not report the last
  failure. It stops at the first non-zero exit code (dpipe.py:110-114), so
  later handles are never waited on. `WaitAll` proves this: `waited` is the
  index of the first failure plus one.
- A template without placeholders has no error of its own. With a string
  batch it fails the placeholder-count assertion. With a non-empty batch of
  empty tuples it passes (`Validate` accepts it).
- This revision has no exit-code-check switch, no output sink and no
  `run=False` flag. `Commands` stands for building without launching.

## Model

| member | source | states |
|---|---|---|
| Templates.DummyIndices | dpipe.py:89 | `dummy_indices` has one entry per placeholder counted at line 79, and every entry is a position in the template |
| Templates.DummyIndicesExact | dpipe.py:89 | every entry of `dummy_indices` is a placeholder position; the entries strictly increase; no placeholder position is missing |
| Templates.DummyIndicesRank | dpipe.py:89 | exactly k placeholders come before the k-th entry, so entries pair with values left to right |
| Templates.SubstituteAt | dpipe.py:105-107 | at position p, filling from a record keeps a literal; a placeholder with n placeholders before it gets the n-th value, or stays a placeholder when there is no n-th value |
| Templates.SubstituteAllAt | dpipe.py:100-101 | filling from a string keeps every literal and puts the string at every placeholder |
| Templates.SubstituteComplete | dpipe.py:104-107 | a record with one value per placeholder leaves no placeholder, keeps every literal, and puts its k-th value at the k-th placeholder position |
| Templates.SubstituteSingle | dpipe.py:97-108 | with exactly one placeholder, filling from a string equals filling from the one-element tuple holding it |
| Templates.OverwriteAt | dpipe.py:106-107 | after j in-place writes, placeholder k holds value k when k < j and is still a placeholder otherwise; literals are untouched |
| Templates.OverwriteAllDummies | dpipe.py:100-101 | writing the string at every position of `dummy_indices` gives the string-filled template |
| Templates.OverwriteZip | dpipe.py:106-107 | writing record fields at `dummy_indices` as `zip` pairs them, up to the shorter of the two, gives the record-filled template |
| Sanity.Validate | dpipe.py:72-86 | a batch is accepted iff it is all strings and the template has one placeholder, or a non-empty batch of tuples each as long as the placeholder count; `TypeError` iff neither all strings nor all tuples; the uniformity error iff tuples differ in length from the first; the placeholder-count error in the remaining cases, and never a process error |
| Sanity.EmptyBatch | dpipe.py:72-81 | the empty batch counts as all strings, so it is accepted exactly when the template has one placeholder, and otherwise fails the placeholder-count assertion |
| Build.FillFromString | dpipe.py:99-101 | copying the template and overwriting each placeholder position with the string, in place in an array, gives the string-filled template |
| Build.FillFromTuple | dpipe.py:105-107 | copying the template and overwriting the k-th placeholder position with the k-th field, in place in an array, gives the record-filled template |
| Build.BuildCommandContents | dpipe.py:97-108 | the command built for an accepted item has the template's length, keeps every literal, leaves no placeholder, and has the item's k-th value at the k-th placeholder position |
| Build.CommandsContents | dpipe.py:96-108 | an accepted batch gives one command per item in iteration order, each as described for one item |
| Build.StringsAsTuples | dpipe.py:96-108 | a string batch gives the same commands, or the same error, as the batch of one-element tuples holding its strings |
| Launch.LaunchStrings | dpipe.py:98-102 | the string loop appends one handler per item, in order, each the string-filled template |
| Launch.LaunchTuples | dpipe.py:104-108 | the tuple loop appends one handler per item, in order, each the record-filled template |
| Launch.LaunchAll | dpipe.py:89-108 | after the checks pass, the handler list is exactly the command list `Commands` specifies |
| Launch.WaitAll | dpipe.py:110-114 | the join succeeds iff every exit code is 0, waiting on all handles; otherwise it raises with the code and command of the first non-zero handle, and no later handle is waited on |
| Launch.Subprocesses | dpipe.py:63-114 | a sanity-check error is raised with no child launched and none waited on; otherwise the launched commands are the specified ones and the join outcome is as for `WaitAll` |
| Launch.FalseChildReported | dpipe.py:110-114 | for the exit codes 0, 1, 0 the failure names the `false` command with code 1, after waiting on two handles |
| Scenarios.GoodStrings | test_dpipe.py:43-53 | `['echo', dummy]` with four strings gives the four `echo` commands |
| Scenarios.GoodTuples | test_dpipe.py:55-67 | the three 3-tuples fill `['hey', dummy, 'name', dummy, dummy]` in order |
| Scenarios.MixedBatch | test_dpipe.py:19-23 | a string next to a tuple raises `TypeError` |
| Scenarios.RaggedTuples | test_dpipe.py:25-29 | a 2-tuple next to a 1-tuple fails the uniformity assertion |
| Scenarios.TooFewFields | test_dpipe.py:31-36 | uniform 3-tuples against four placeholders fail the placeholder-count assertion |

## Left out

- `initLogger`, `logwrap`, `callAndLog` (dpipe.py:9-47): logging set-up and single-process wrappers around the logging and subprocess libraries.
- `processes` (dpipe.py:50-56): a process-pool map, i.e. concurrency inside a foreign library.
- The assertion that the template is a list (dpipe.py:71): a template here is always a sequence. So the non-list-template test (test_dpipe.py:12-17) has no counterpart.
- Starting a child with `subprocess.Popen` and waiting on it (dpipe.py:94, 111). Starting a child is appending its command to the handler list. The exit codes are an input sequence in launch order, one per launched child. No exception raised by `Popen` is modelled: an OS error (missing executable, no permission), or `IndexError` for an empty command, which an empty template with a batch of empty tuples produces after passing the checks.
- The `pprint`/`log.debug` rendering of each command (dpipe.py:92-93): it is output only.
- The model assumes `initLogger` has bound the module global `log` (dpipe.py:13-14). Otherwise dpipe.py:93 raises `NameError` at the first launch, after the checks pass and before any child starts. `Subprocesses` has no outcome for that path.
- Launch.Subprocesses: requires one exit code per item, because the codes stand for the children the environment would run.
- Tuple fields other than `str` are not modelled: `Popen` accepts `bytes` and path-like fields and rejects other types at spawn time (dpipe.py:94), after the earlier children have started. Any item that is neither a string nor a tuple is `Other`.
- Template literals are strings (`Lit(string)`): the source copies any non-`Dummy` template element through unchanged (dpipe.py:99, 105), whatever its type.
- The checks at dpipe.py:71, 81, 85 and 86 are `assert` statements, which `python -O` removes; the model always raises `NotUniform` or `DummyMismatch` there, as the source does when assertions are enabled.
- Object identity: the template copy (`template[:]`) is modelled by value. Two `Dummy` instances are the same marker, as `isinstance` treats them.
