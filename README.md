# ESS chopper controller — a Dafny model

This project models the chopper device of the ESSIIP experimental NICOS setup
(`lib/chopper.py`): the enumerated command channel `EpicsEnumMoveable`, which
turns command labels into the ordinals an EPICS PV expects and ordinals back
into labels, and the composite device `EssChopper`, which drives a chopper disc
through its speed, phase, park-position and command channels and derives its
status from an optional state channel.

Files:

- `wrappers.dfy` — `Result` and `Option`, standing in for Python's exceptions.
- `text.dfy` — `Lower` (ASCII `str.lower()`) and `IndexOf` (`list.index`), with
  their laws: lower-casing is idempotent and character-wise, `IndexOf` finds the
  first occurrence and inverts indexing on a list without repeats.
- `epics_enum.dfy` — class `EpicsEnumMoveable` with the label list (`enum_strs`)
  as a `seq<string>` field and a log of the ordinals the write PV accepted;
  `Resolve` and `LabelAt` are the pure label/ordinal translations its `doStart`
  and `doRead` perform, Python's negative indexing included.
- `chopper.dfy` — class `EssChopper`. Every write an attached channel accepts
  is appended to a `trace: seq<Write>`. Which writes a channel accepts is a
  parameter `accepts: Write -> bool` of each command, so that a refused write
  (a communication error, or a command label the command channel does not know)
  can be stated. `Run(plan, accepts)` is the specification of a command
  sequence: the writes of `plan` are issued in order up to the first refused
  one, which raises, and nothing after it is issued. Each command method is
  proved to append exactly `Run(<its plan>, accepts).issued` to the trace and
  to end with `Run(...).outcome`; the lemmas then state what those plans do.
  `state_map` (`lib/chopper.py:50-61`) is the constant `StateMap` and the
  fixed WARN pair (`lib/chopper.py:92`) the constant `MissingStateStatus`;
  `doStatus` is a function over them. In the setup file the command channel
  is an `EpicsEnumMoveable` (`setups/mini_chopper.py:45-61`);
  `CommandChannelAccepts` composes the two models that way.

Hardware is reached only through parameters: the state channel's reading
(`stateRead`), the speed and phase readings, the ordinal the read PV reports
(`readback`), the `enum_strs` entry of the write PV's control metadata, and
whether each write is accepted. Whether the state channel is attached is a
constant of the chopper object, fixed by its constructor.

Three points of the code's behaviour that are easy to get wrong:

- `doStart` initializes only when the state channel reads exactly `"init"`
  (`lib/chopper.py:75` compares without lower-casing), while `doStatus`
  lower-cases the reading first. `InitCheckIsCaseSensitive` states the
  difference: a reading `"Init"` reports ERROR but does not trigger
  `initialize`.
- `doRead` of the command channel fails only for an ordinal at or beyond the
  end of the label list or before its negative start; a negative ordinal in
  range counts from the end, as Python indexing does.
- No bounds are checked before a write; the code does none.

## Model

| member | source | states |
|---|---|---|
| Text.LowerChar | lib/chopper.py:33 | one character of `str.lower()` on ASCII: an upper-case letter becomes its lower-case letter, every other character is kept, and no upper-case letter is left |
| Text.Lower | lib/chopper.py:33 | `str.lower()` on ASCII text: the same length, each character lowered on its own |
| Text.LowerIsLower | lib/chopper.py:33 | what `str.lower()` returns has no upper-case letter left |
| Text.LowerOfLower | lib/chopper.py:33 | a string without upper-case letters is unchanged by `str.lower()` |
| Text.IndexOf | lib/chopper.py:33 | `list.index`: no result exactly when the element is absent; otherwise an in-range position holding the element with no earlier occurrence |
| Text.LowerIdempotent | lib/chopper.py:33 | lower-casing an already lower-cased string changes nothing |
| EpicsEnum.Resolve | lib/chopper.py:30-33 | a raw value passes through unchanged; a label fails with an unknown-label error on its lower-case form exactly when that form is not in the list, and otherwise gives the first position holding that lower-case form |
| EpicsEnum.LabelAt | lib/chopper.py:38 | Python list indexing: succeeds exactly for `-len <= i < len`, a non-negative index gives `labels[i]`, a negative one counts from the end, anything else is an invalid-ordinal error |
| EpicsEnum.EpicsEnumMoveable.constructor | lib/chopper.py:24 | a new channel has the empty default label list and has written nothing |
| EpicsEnum.EpicsEnumMoveable.DoInit | lib/chopper.py:26-28 | in SIMULATION the labels are unchanged (so repeating it is a no-op); otherwise they become the metadata's `enum_strs`, or `[]` when the metadata has none |
| EpicsEnum.EpicsEnumMoveable.DoStart | lib/chopper.py:30-35 | an unresolvable label fails and writes nothing; a refused write fails and logs nothing; otherwise exactly the resolved ordinal is appended to the write log |
| EpicsEnum.EpicsEnumMoveable.DoRead | lib/chopper.py:37-38 | fails exactly for an ordinal `>= len` or `< -len`; a successful read is one of the labels |
| EpicsEnum.ResolveIgnoresCase | lib/chopper.py:33 | a label and its lower-case form ("Start" and "start") resolve alike, to the same ordinal |
| EpicsEnum.UnpopulatedRejectsEveryLabel | lib/chopper.py:24-33 | with the unpopulated default list every label fails as unknown, reported in lower case |
| EpicsEnum.ResolvedLabelIsLower | lib/chopper.py:33 | only the command is lower-cased, never the stored labels: for every list, a label resolves only to a position whose entry has no upper-case letter |
| EpicsEnum.CapitalisedLabelNeverMatches | lib/chopper.py:33 | a corollary of the previous row: with the list `["Start"]` no label at all resolves |
| EpicsEnum.ReadBackWrittenLabel | lib/chopper.py:30-38 | reading back the ordinal a label resolved to gives the label's lower-case form |
| EpicsEnum.ResolveReadLabel | lib/chopper.py:30-38 | for distinct lower-case labels, commanding the label read at ordinal `i` resolves to `i` again |
| Chopper.StartPlan | lib/chopper.py:74-80 | the writes `doStart(pos)` means to issue: `init` when a state channel is attached and reads exactly "init", then speed, phase and "start" |
| Chopper.ParkPlan | lib/chopper.py:102-105 | the writes `parkAt(angle)` means to issue: the park position, then "park" |
| Chopper.Run | lib/chopper.py:74-80 | the writes issued are a prefix of the plan, all accepted; the sequence ends normally exactly when the whole plan was issued, and otherwise fails at the first refused write, which is the plan's next write |
| Chopper.EssChopper.constructor | lib/chopper.py:41-48 | a chopper is assembled with a fixed state-channel presence and has issued no write |
| Chopper.EssChopper.Move | lib/chopper.py:78-80 | a channel `move` reports whether the write was accepted and appends it to the trace exactly then |
| Chopper.EssChopper.Command | lib/chopper.py:94-109 | a command-channel write appends `Run([Cmd(c)])` to the trace |
| Chopper.EssChopper.DoRead | lib/chopper.py:71-72 | the position is the speed reading then the phase reading; a function of the two readings, so nothing is written |
| Chopper.EssChopper.DoStart | lib/chopper.py:74-80 | appends exactly the writes `Run` issues for the start plan (`init` when the state reads "init", then speed, phase, "start") and returns its outcome |
| Chopper.EssChopper.DoStop | lib/chopper.py:82-83 | appends at most the one write `Cmd("stop")` |
| Chopper.EssChopper.DoStatus | lib/chopper.py:88-92 | without a state channel the fixed WARN pair whatever the reading; with one, the table entry of the lower-cased reading, and an unknown-state error on that lower-cased key exactly when the table has no such key |
| Chopper.EssChopper.Initialize | lib/chopper.py:94-96 | appends at most the one write `Cmd("init")` |
| Chopper.EssChopper.Deinitialize | lib/chopper.py:98-100 | appends at most the one write `Cmd("deinit")` |
| Chopper.EssChopper.ParkAt | lib/chopper.py:102-105 | appends exactly the writes `Run` issues for `[Park(angle), Cmd("park")]` and returns its outcome |
| Chopper.EssChopper.Unlock | lib/chopper.py:107-109 | appends at most the one write `Cmd("unlock")` |
| Chopper.SingleCommand | lib/chopper.py:82-83 | a single command issues exactly its one write and succeeds, or issues nothing and fails at it |
| Chopper.StartRun | lib/chopper.py:74-80 | where `doStart` stops: a refused `init` issues nothing, a refused speed leaves at most the `init`, a refused phase leaves the speed write after it, a refused "start" leaves speed and phase; with nothing refused all of the plan goes out |
| Chopper.StartAllAccepted | lib/chopper.py:74-80 | when every channel accepts, `doStart` issues `init` (state exactly "init") then speed, phase and "start", in that order, and succeeds |
| Chopper.StartInitializesIff | lib/chopper.py:74-76 | an `init` write is issued if and only if a state channel is attached, reads exactly "init" and the command channel accepts it; then it comes strictly before the speed write |
| Chopper.StartSpeedRefused | lib/chopper.py:78-80 | a refused speed write fails the move and leaves phase and "start" unissued; only a leading `init` may have been written |
| Chopper.ParkSequence | lib/chopper.py:102-105 | park position strictly before "park"; a refused park write issues nothing, a refused "park" leaves only the park write |
| Chopper.StateMapLabels | lib/chopper.py:50-61 | `state_map` is defined on exactly the ten state labels |
| Chopper.StateMapSeverities | lib/chopper.py:50-61 | ERROR exactly for "init"; OK exactly for stopped, parked, phase_locked, idle; BUSY exactly for the other five; never WARN |
| Chopper.StateMapKeysLowerCase | lib/chopper.py:50-61 | every key is its own lower-case form, so each entry is reachable through the lower-cased reading |
| Chopper.StatusIgnoresCase | lib/chopper.py:88-90 | a state reading and its lower-case form ("Parked", "parked") give the same status |
| Chopper.StatusOfKnownState | lib/chopper.py:88-90 | with a state channel, each known state label reports its table entry |
| Chopper.InitCheckIsCaseSensitive | lib/chopper.py:74-90 | for every reading other than "init" whose lower-case form is "init" ("Init", "INIT", ...), `doStatus` reports ERROR yet `doStart` issues no `init` |
| Chopper.CommandChannelAccepts | lib/chopper.py:30-35 | a write goes through an `EpicsEnumMoveable` command channel exactly when the PV layer takes it and, for a command, its lower-cased label is in the channel's labels |
| Chopper.CommandNeedsLabel | lib/chopper.py:30-35 | through an `EpicsEnumMoveable` command channel a lower-case command is accepted only if it is one of the channel's labels |
| Chopper.StartNeedsStartLabel | lib/chopper.py:74-80 | `doStart` can issue "start" only if the command channel's labels contain "start" |
| Chopper.UnpopulatedCommandChannel | lib/chopper.py:24-35 | with the command channel's labels not yet fetched, a command issues no write and fails |
| Chopper.InitializeTwice | lib/chopper.py:94-96 | two `initialize` calls append two separate `init` writes; nothing is merged |

## Left out

- EPICS transport (`_get_pv`, `_put_pv`, `_get_pvctrl`): replaced by parameters for readings, metadata and write acceptance; connection handling, timeouts and the `maxage` cache are not modelled.
- NICOS framework machinery (`Attach`, `Param`, `Override`, `usermethod`, `valuetype`, `tupleof`, `fmtstr`, `hardware_access`): declarative configuration without logic here. `move` is modelled as the device's `doStart`; the limit checks and status waiting NICOS adds around it are not.
- How an absent optional attachment shows up (`hasattr`): modelled as the constant `hasState`.
- `EpicsFloatMoveable`, `EpicsStringMoveable`: they only set `valuetype`.
- Limits (`abslimits`, the commented-out `doReadAbslimits`): enforced outside this code.
- Speed, phase and park values are `real` and passed through untouched; float semantics are not modelled.
- A state or speed/phase read that fails: reads are parameters and always yield a value.
- Text.Lower: lower-cases ASCII letters only, not the full Unicode mapping of Python's `str.lower()`.
- EpicsEnum.Resolve: a non-string command value is modelled as an integer ordinal; other Python types are not.
- The setup files `setups/mini_chopper.py` and `setups/lakeshore_336.py`: device wiring with only PV-name formatting.
- Chopper.Run: the outcome of a chopper command records the write it stopped at, not which error stopped it (an unknown command label or a refused PV write).
- Concurrency and interleaving of commands from several callers.
