# ni660x acquisition coordinator, modelled in Dafny

This project models `CountingApp`, the coordinator of the ni660x beamline
acquisition. It owns a name-keyed set of counting channels and one gate
generator (timer). It starts the channels and then the timer, tracks which
channels were started in the current run, and gives the caller the channel
names, flags, buffers and ready counts, and whether the gate train is done.

Files:

- `py_builtins.dfy` (module `PyBuiltins`): the parts of Python the coordinator
  uses. These are a dict's distinct keys, the slice `s[start:end]`, and `min`.
- `hardware.dfy` (module `Hardware`): the channel and timer as the coordinator
  sees them. A channel is an `enabled` flag, a `data` buffer and a
  `sample_readies` count. The timer is a `done` flag. It also defines one trace
  of the hardware calls the coordinator makes (channel `start`/`stop`, timer
  `start`/`stop`). A channel's or the timer's own log is a projection of that
  trace, so call order across devices can be stated.
- `application.dfy` (module `Application`): the class `CountingApp`. The field
  `names` holds the configuration order, `channels` is the name-to-channel
  dict, `started` is the list of started names, and `calls` is the call trace.
  Its methods follow the Python methods one by one. Next to them are the
  specification functions and lemmas they are proved against. A small client,
  `TwoChannelRun`, uses one enabled and one disabled channel.

Three behaviours of the code are worth knowing before reading the contracts:

- `start_channels` calls `start` on every configured channel, enabled or not.
  Only the enabled ones are recorded as started.
- `set_channels_enabled` raises `KeyError` at the first unknown name. The names
  before it have already been updated by then, so the call is not atomic.
- `get_all_data` indexes the started list with a name. This fails whenever
  anything was started (see Findings).

## Model

| member | source | states |
|---|---|---|
| `Application.CountingApp.constructor` | ni660x/application.py:33-37 | the channel dict holds each configured counter under its name, its keys in configuration order; nothing is started and no hardware call has been made |
| `Application.CountingApp.StartChannels` | ni660x/application.py:48-54 | every configured channel gets `start(samples)` once, in configuration order, enabled or not, and is armed (flag kept, buffer and ready count cleared); the started list is rebuilt from scratch as the enabled names in configuration order; the timer is untouched |
| `Application.StartEach` | ni660x/application.py:51-54 | the loop over the channel dict arms each listed channel, collects the enabled names in order and makes one `start(samples)` call per name, in order |
| `Application.EnabledNames` | ni660x/application.py:51-54 | the started list is never longer than the configuration and holds only configured names |
| `Hardware.Armed` | ni660x/application.py:52 | a channel after `start(samples)` keeps its `enabled` flag and has an empty buffer and no sample ready |
| `Application.ArmListed` | ni660x/application.py:51-52 | starting channels one name after another never adds or removes a channel |
| `Application.ArmListedEffect` | ni660x/application.py:51-52 | starting channels by name arms exactly the listed channels and leaves every other channel as it was |
| `Application.ArmEvery` | ni660x/application.py:50-52 | when every configured channel is started, every channel is armed: flag kept, buffer empty, nothing ready |
| `Application.EnabledNamesMembers` | ni660x/application.py:51-54 | a name is in the started list exactly when it is configured and its channel is enabled |
| `Application.EnabledNamesConcat` | ni660x/application.py:51-54 | collecting started names keeps configuration order: over a concatenation of names it is the concatenation of the collections |
| `Application.EnabledNamesDistinct` | ni660x/application.py:50-54 | the started list never names a channel twice |
| `Application.CountingApp.StartTimer` | ni660x/application.py:56-58 | the timer receives one `start` with samples, high time, low time and initial delay unchanged (delay 0 by default) and is then not done; the channels and the started list are untouched |
| `Application.CountingApp.StartAll` | ni660x/application.py:60-72 | the calls made are the channel starts followed by the timer start, with the same samples value; the channels are armed and the started list is as after `start_channels`; the timer is not done |
| `Application.StartAllCalls` | ni660x/application.py:71-72 | the `start_all` trace is one `start(samples)` per configured channel, in configuration order, then the timer's `start` with the same samples and the given times |
| `Application.StartAllOrder` | ni660x/application.py:60-72 | in the `start_all` trace each configured channel is started once with `samples`, the timer once with `samples` and the given times, and every channel call comes before the timer call |
| `Application.CountingApp.Stop` | ni660x/application.py:74-78 | the timer is stopped and is then done, then every configured channel is stopped; the started list, every flag and every buffer are unchanged, so a second stop changes nothing observable |
| `Application.StopCalls` | ni660x/application.py:75-78 | the `stop` trace is the timer's `stop` followed by one `stop` per configured channel, in configuration order |
| `Application.StopOrder` | ni660x/application.py:74-78 | in the `stop` trace the timer call comes before every channel call, and every configured channel, started or not, gets exactly one `stop` |
| `Hardware.BroadcastReachesEach` | ni660x/application.py:51-52 | a loop calling one method on every channel of a dict reaches each configured channel exactly once, no other channel and never the timer |
| `Application.CountingApp.GetAllData` | ni660x/application.py:82-92 | as written: an empty dict when nothing is started; a `TypeError` as soon as one channel is started |
| `Application.CountingApp.GetAllDataByName` | ni660x/application.py:82-92 | as documented: keys are exactly the started names, each mapped to that channel's current buffer |
| `Application.CountingApp.GetNames` | ni660x/application.py:94-99 | every configured name exactly once, in configuration order, whether enabled or not |
| `Application.CountingApp.GetChannelData` | ni660x/application.py:101-113 | a `KeyError` exactly when the name is not configured; otherwise the Python slice `data[start:end]` of its buffer, never longer than the buffer |
| `PyBuiltins.Slice` | ni660x/application.py:112 | the slice is the run of samples starting at the normalised start bound and ending just before the normalised end bound: its length is their difference when they increase, and it is empty exactly when they do not |
| `PyBuiltins.SliceBound` | ni660x/application.py:112 | a slice bound is normalised as Python does: a negative bound counts from the end, then the bound is clamped between 0 and the length |
| `PyBuiltins.SliceInRange` | ni660x/application.py:112 | with bounds in range the slice is the plain subsequence |
| `PyBuiltins.SliceNegativeBounds` | ni660x/application.py:112 | a negative bound counts from the end of the buffer |
| `PyBuiltins.SliceNormalised` | ni660x/application.py:112 | out-of-range bounds are clamped to the buffer before slicing |
| `PyBuiltins.SliceDefaultEndDropsLast` | ni660x/application.py:101 | with the default end `-1` exactly the last sample is excluded |
| `PyBuiltins.SliceDefaultEndExamples` | ni660x/application.py:101-113 | on [1, 2, 3, 4, 5], `[0:-1]` is [1, 2, 3, 4] and `[2:-1]` is [3, 4] |
| `PyBuiltins.SliceConcat` | ni660x/application.py:112 | adjacent windows read one after the other concatenate to the window spanning both |
| `Application.CountingApp.SetChannelsEnabled` | ni660x/application.py:115-129 | the listed names (all configured names when the list is empty) are set one at a time up to the first unknown name; that name is reported as a `KeyError`, and the updates before it stay in effect; the started list is untouched |
| `Application.WithEnabled` | ni660x/application.py:128-129 | setting flags one name at a time never adds or removes a channel |
| `Application.KnownPrefix` | ni660x/application.py:128-129 | the position where the loop stops: every earlier name is configured, and the name there, if any, is not |
| `Application.WithEnabledEffect` | ni660x/application.py:128-129 | setting flags by name changes exactly the listed channels' flags; other channels, and all buffers and ready counts, are unchanged |
| `Application.SetAllFlags` | ni660x/application.py:125-126 | with the empty list no name is unknown and every channel ends with the requested flag |
| `Application.LastWriteWins` | ni660x/application.py:115-141 | after two updates a channel carries the flag of the later update that listed it, so `get_channels_enabled` reflects the last write |
| `Application.CountingApp.GetChannelsEnabled` | ni660x/application.py:131-141 | keys are exactly the configured names, each with its channel's current flag |
| `Application.CountingApp.GetSamplesReadies` | ni660x/application.py:143-150 | 0 when nothing is started; otherwise at most every started channel's ready count and equal to one of them |
| `PyBuiltins.Min` | ni660x/application.py:148 | `min` of a non-empty list is at most every element and is one of them |
| `Application.CountingApp.IsDone` | ni660x/application.py:152-153 | the timer's `done` flag, passed through unchanged |

## Left out

- Construction from a YAML file and the terminal connections made in `__init__` (ni660x/application.py:20-32) are file and hardware I/O. The constructor takes the list of configured counters and a timer snapshot.
- `__del__`, which disconnects the terminals, is hardware I/O tied to object destruction.
- `main`, the command-line options and the XML-RPC server are transport and process plumbing.
- The internals of `PulseCounter` and `PulseTimeGenerator` are not part of this model. Every `start` or `stop` on them is recorded in the call trace and given its documented effect on the snapshot: a channel's `start` empties its buffer and ready count and keeps its flag, the timer's `start` makes it not done, and the timer's `stop` makes it done. A channel's `stop` is modelled as leaving its buffer and ready count as they are, so the data stays readable. What the hardware does afterwards (samples arriving, a pulse train ending by itself) is not modelled.
- Hardware errors raised by a channel's or the timer's `start` or `stop` are not modelled. The source catches none of them: one failing call ends `start_channels`, `start_all` or `stop` and skips the calls after it (for `stop`, the remaining channels), so `stop` is not best-effort. That partial state is not modelled.
- Buffers and ready counts grow asynchronously while the hardware runs. This is concurrency, and the model reads one snapshot of them.
- Sample values and the high, low and delay times are floats. They are modelled as `real` values that are only copied, never computed with.
- The numpy `.tolist()` conversion and the `print` calls.
- Encoder capture is marked as not implemented in the source.

## Findings

| source | as written | input that shows it | evidently intended | confidence | as-written member | corrected member |
|---|---|---|---|---|---|---|
| ni660x/application.py:91 | `self._channels_started[name]` indexes the list of started names with a string | any call after at least one enabled channel was started, for instance channel A enabled and `start_all(10, 0.01, 0.01)` | `self._channels[name].data`: the buffer of every started channel, keyed by name | high; not executed | `Application.CountingApp.GetAllData` | `Application.CountingApp.GetAllDataByName` |
