# Vsync modulation, sensor queue bookkeeping and joystick axis ids, in Dafny

This project models three pieces of the Android platform and proves properties of each.

- **`VsyncModulator`** (SurfaceFlinger's scheduler), in `vsync_modulator.dfy`, module `Scheduler`.
  - It tracks why the display should run on early vsync offsets:
    - a set of pending early-wakeup tokens;
    - the stored transaction schedule (`Late`, `EarlyStart`, `EarlyEnd`);
    - two decay windows counted in frames: early transaction frames, and early GPU frames;
    - a refresh-rate-change flag;
    - the start time of the early transaction window and the time of the last commit.
  - After each event it classifies that state as `Early`, `EarlyGpu` or `Late`. It caches the matching member of the config set.
  - The model has three layers:
    - a pure one-call function per event (`ScheduleStep`, `CommitStep`, and so on);
    - event traces built on those functions (`Run`), with `Inv` as the invariant preserved by every call;
    - the class `VsyncModulator`, whose methods update its fields in place, as the C++ does. Each method is proved to leave exactly the state its step function computes.
  - The cached config is current whenever `EarlyStart` is not stored. Inside `EarlyStart` it can lag the classification. `CachedConfigCanGoStale` gives the trace: a client dies, then another client sends `EarlyStart` while `EarlyStart` is stored.
- **`SensorEventQueue`** (the client side of the sensor event channel), in `sensor_event_queue.dfy`, module `Sensor`.
  - `filterEvents` compacts an event array in place. It drops additional-info events unless they were requested, moving each run of kept events with one `memmove`. It is proved against `Kept`, the order-preserving filter of its input.
  - `read` hands out events from the receive buffer through its consumed/available cursor.
  - `sendAck` counts the wake-up events that need an acknowledgement and sends the owed total.
- **`JoystickInputMapper`** (the input reader's joystick mapper), in `joystick_input_mapper.dfy`, module `Joystick`.
  - This part models the integer bookkeeping of the axis table only:
    - the compatibility and centred-axis tables;
    - the search for an axis id in use;
    - the pruning of surplus axes;
    - the collection of axes and the assignment of generic axis ids in `reconfigure`.
  - The table is a map from raw axis codes to `(axis, highAxis, mode, explicitlyMapped)` records. `std::map`'s ascending iteration is modelled by repeatedly taking the smallest key not yet visited.

`wrappers.dfy` holds the `Option` type that stands for `std::optional`.

## Model

| member | source | states |
|---|---|---|
| Scheduler.ScheduleUpdatesRequests | services/surfaceflinger/Scheduler/VsyncModulator.cpp:50-70 | EarlyStart with a token inserts it (re-inserting leaves the set unchanged), without one changes nothing. EarlyEnd removes the token if pending and otherwise changes nothing. Late never touches the set |
| Scheduler.ScheduleOpensGraceWindow | services/surfaceflinger/Scheduler/VsyncModulator.cpp:72-75 | The early transaction window gets MIN_EARLY_TRANSACTION_FRAMES frames and starts at `now` exactly when an EarlyEnd leaves the pending set empty, even an unexpected one. Otherwise the counters, flag and clocks are untouched |
| Scheduler.ScheduleIsSticky | services/surfaceflinger/Scheduler/VsyncModulator.cpp:77-82 | Nothing is selected if and only if the request equals the stored schedule or EarlyEnd is stored, and then the schedule is unchanged. Otherwise the request is stored and the new classification is selected. With EarlyEnd stored, the schedule stays EarlyEnd and the classification stays Early |
| Scheduler.CommitStoresLate | services/surfaceflinger/Scheduler/VsyncModulator.cpp:85-90 | A commit always stamps the commit time and leaves Late stored. It selects nothing if and only if Late was already stored, and then nothing else changes |
| Scheduler.CommitTwiceIsNoOp | services/surfaceflinger/Scheduler/VsyncModulator.cpp:85-90 | A second commit in a row only moves the commit time and selects nothing |
| Scheduler.RefreshRateChangeFlips | services/surfaceflinger/Scheduler/VsyncModulator.cpp:92-102 | Each refresh-rate notification is a no-op when the flag already has its value. Otherwise it flips the flag and reselects; Early is selected when a change starts |
| Scheduler.DisplayRefreshDecays | services/surfaceflinger/Scheduler/VsyncModulator.cpp:104-124 | The transaction window loses a frame only once the commit lags the window's start by 1 ms and frames remain. GPU composition refills the GPU window, otherwise it loses a frame if positive. Neither counter goes negative. Nothing is selected if and only if neither counter moved and no GPU composition happened |
| Scheduler.ClassificationPriority | services/surfaceflinger/Scheduler/VsyncModulator.cpp:131-142 | Early if and only if a request is pending, EarlyEnd is stored, transaction frames remain or a refresh-rate change is pending. Otherwise EarlyGpu if and only if GPU frames remain, otherwise Late. A pending request forces Early whatever the counters |
| Scheduler.BinderDiedActsLikeSilentEarlyEnd | services/surfaceflinger/Scheduler/VsyncModulator.cpp:181-185 | A dead client's token is dropped (a no-op if absent), the config is reselected, and nothing else changes. The pending set is the one an EarlyEnd for that token would leave, but no grace window opens |
| Scheduler.InitialIsValid | services/surfaceflinger/Scheduler/VsyncModulator.cpp:37-39 | A new modulator satisfies the invariant and caches the current classification |
| Scheduler.SelectedIsCurrent | services/surfaceflinger/Scheduler/VsyncModulator.cpp:160-162 | Whatever an event selects is the classification of the state it leaves |
| Scheduler.ApplyKeepsInv | services/surfaceflinger/Scheduler/VsyncModulator.cpp:41-124 | Every event keeps both windows within their bounds, and keeps the cached config current unless EarlyStart is stored |
| Scheduler.RunKeepsInv | services/surfaceflinger/Scheduler/VsyncModulator.cpp:41-124 | The invariant holds after any sequence of events |
| Scheduler.EarlyEndHoldsUntilCommit | services/surfaceflinger/Scheduler/VsyncModulator.cpp:77-90 | Only a commit leaves EarlyEnd: until one arrives, the schedule stays EarlyEnd and the cached config stays Early |
| Scheduler.GpuWindowCountsDown | services/surfaceflinger/Scheduler/VsyncModulator.cpp:114-120 | With nothing urgent, each refresh without GPU composition takes exactly one frame off the GPU window and changes nothing else |
| Scheduler.GpuCompositionScenario | services/surfaceflinger/Scheduler/VsyncModulator.cpp:114-142 | A GPU-composited frame selects EarlyGpu, which is kept for MIN_EARLY_GPU_FRAMES - 1 further refreshes, after which Late is selected |
| Scheduler.EarlyTransactionScenario | services/surfaceflinger/Scheduler/VsyncModulator.cpp:47-124 | EarlyStart, EarlyEnd, commit, then two refreshes: Early holds through the grace window, then Late returns |
| Scheduler.BinderDiedScenario | services/surfaceflinger/Scheduler/VsyncModulator.cpp:181-185 | A client that dies after EarlyStart leaves no request and no grace window behind, and Late is selected |
| Scheduler.CachedConfigCanGoStale | services/surfaceflinger/Scheduler/VsyncModulator.cpp:77-82 | A repeated EarlyStart adds a token without reselecting, so Late can stay cached while a request is pending |
| Scheduler.VsyncModulator.constructor | services/surfaceflinger/Scheduler/VsyncModulator.cpp:37-39 | The modulator starts with the given config set, no requests, Late stored, empty windows and the late config cached |
| Scheduler.VsyncModulator.GetNextVsyncConfigType | services/surfaceflinger/Scheduler/VsyncModulator.cpp:131-142 | Early if and only if a request is pending, EarlyEnd is stored, transaction frames remain or a refresh-rate change is pending. Otherwise EarlyGpu if and only if GPU frames remain, otherwise Late |
| Scheduler.VsyncModulator.GetNextVsyncConfig | services/surfaceflinger/Scheduler/VsyncModulator.cpp:144-153 | The early, early-GPU or late member of the current config set, as the classification names |
| Scheduler.VsyncModulator.UpdateVsyncConfigLocked | services/surfaceflinger/Scheduler/VsyncModulator.cpp:160-179 | The cached config becomes, and the result is, the current classification's member of the config set |
| Scheduler.VsyncModulator.SetVsyncConfigSet | services/surfaceflinger/Scheduler/VsyncModulator.cpp:41-45 | The config set is replaced and the current classification's member of the new set is cached and returned; the rest of the state is unchanged |
| Scheduler.VsyncModulator.SetTransactionSchedule | services/surfaceflinger/Scheduler/VsyncModulator.cpp:47-83 | The fields become ScheduleStep's state and the result is the config it selects, keeping the invariant |
| Scheduler.VsyncModulator.OnTransactionCommit | services/surfaceflinger/Scheduler/VsyncModulator.cpp:85-90 | The fields become CommitStep's state and the result is the config it selects, keeping the invariant |
| Scheduler.VsyncModulator.OnRefreshRateChangeInitiated | services/surfaceflinger/Scheduler/VsyncModulator.cpp:92-96 | The fields become RefreshRateChangeInitiatedStep's state and the result is the config it selects, keeping the invariant |
| Scheduler.VsyncModulator.OnRefreshRateChangeCompleted | services/surfaceflinger/Scheduler/VsyncModulator.cpp:98-102 | The fields become RefreshRateChangeCompletedStep's state and the result is the config it selects, keeping the invariant |
| Scheduler.VsyncModulator.OnDisplayRefresh | services/surfaceflinger/Scheduler/VsyncModulator.cpp:104-124 | The fields become DisplayRefreshStep's state and the result is the config it selects, keeping the invariant |
| Scheduler.VsyncModulator.BinderDied | services/surfaceflinger/Scheduler/VsyncModulator.cpp:181-185 | The fields become BinderDiedStep's state and the cached config is current afterwards |
| Scheduler.VsyncModulator.GetVsyncConfig | services/surfaceflinger/Scheduler/VsyncModulator.cpp:126-129 | The cached config is returned. It is the current classification's member of the config set whenever EarlyStart is not stored |
| Scheduler.VsyncModulator.IsVsyncConfigEarly | services/surfaceflinger/Scheduler/VsyncModulator.cpp:187-190 | True if and only if some early signal is live, GPU frames included, which is exactly when the classification is not Late; nothing changes |
| Sensor.KeptSelects | libs/sensor/SensorEventQueue.cpp:229-231 | The kept events are exactly the input events that pass the additional-info test, and there are never more of them than input events |
| Sensor.KeptAppend | libs/sensor/SensorEventQueue.cpp:233-260 | Filtering distributes over concatenation, so kept events keep their relative order |
| Sensor.KeptAllIncluded | libs/sensor/SensorEventQueue.cpp:247-255 | The filter returns its input if and only if every event is included; keeping as many events as there are means keeping them all |
| Sensor.KeptByType | libs/sensor/SensorEventQueue.cpp:229-231 | With additional info requested nothing is dropped; without it, exactly the additional-info events are dropped |
| Sensor.AcksNeededAppend | libs/sensor/SensorEventQueue.cpp:201-205 | The acknowledgements owed add up over concatenation and never exceed the number of events |
| Sensor.Memmove | libs/sensor/SensorEventQueue.cpp:252-253 | The destination range receives the old source range, correct for overlapping ranges, and nothing else changes; as a sequence, the array becomes Moved of the old one |
| Sensor.Memcpy | libs/sensor/SensorEventQueue.cpp:87 | The first `n` slots of the destination receive the source range and the rest are unchanged |
| Sensor.MovedRun | libs/sensor/SensorEventQueue.cpp:252-255 | After a run is copied down behind the compacted prefix, the prefix is extended by exactly that run |
| Sensor.MovedInPlace | libs/sensor/SensorEventQueue.cpp:248-254 | Moving no events, or a run onto itself, leaves the array as it was, which is why a run recorded at index 0 needs no memmove |
| Sensor.FlushInterval | libs/sensor/SensorEventQueue.cpp:245-260 | Flushing the run that ends at event `i` (or just before it, when `i` is dropped) leaves the kept events of the first `i + 1` compacted, and the input from `i + 1` on untouched. A run starting at 0 is not moved |
| Sensor.FlushKeepsCompacted | libs/sensor/SensorEventQueue.cpp:245-260 | Appending a run of included events behind the compacted prefix extends it to the kept events of the prefix scanned so far |
| Sensor.AllKeptInPlace | libs/sensor/SensorEventQueue.cpp:247-262 | At the end of the scan the compacted prefix is the filter of the input and the rest is untouched; when everything is kept the array is unchanged |
| Sensor.KeptRun | libs/sensor/SensorEventQueue.cpp:233-260 | The kept events of a prefix ending in a run of included events, optionally followed by one dropped event, are the earlier kept events followed by the run |
| Sensor.SensorEventQueue.constructor | libs/sensor/SensorEventQueue.cpp:44-54 | The queue starts with a fresh buffer of MAX_RECEIVE_BUFFER_EVENT_COUNT events, nothing available or consumed, and no acknowledgement owed |
| Sensor.SensorEventQueue.FilterEvents | libs/sensor/SensorEventQueue.cpp:219-263 | Returns at most `count`; the returned prefix is exactly Kept of the input, in order; slots from `count` on are untouched; when everything is kept the array is unchanged |
| Sensor.SensorEventQueue.Read | libs/sensor/SensorEventQueue.cpp:76-108 | Refills only when nothing is available. A failed refill returns its error and changes nothing. Otherwise it returns min(numEvents, available) and copies those pending events, the rest stay pending, and consumed + available is preserved, or set by a refill |
| Sensor.SensorEventQueue.StoreReceived | libs/sensor/SensorEventQueue.cpp:78-79 | The received events are stored at the start of the receive buffer |
| Sensor.SensorEventQueue.Consume | libs/sensor/SensorEventQueue.cpp:86-107 | Returns min(numEvents, available) and copies that many pending events out. The cursor moves past them, so they are no longer pending and consumed + available is preserved |
| Sensor.SensorEventQueue.SendAck | libs/sensor/SensorEventQueue.cpp:200-217 | The counter grows by the number of events flagged WAKE_UP_SENSOR_EVENT_NEEDS_ACK. It is reset to 0 only when a positive total is sent successfully; after a failed send it is kept. Every owed acknowledgement is either pending or sent |
| Joystick.GetCompatAxis | services/inputflinger/reader/mapper/JoystickInputMapper.cpp:61-69 | LTRIGGER maps to BRAKE, RTRIGGER to GAS, and every other axis to -1 |
| Joystick.IsCenteredAxis | services/inputflinger/reader/mapper/JoystickInputMapper.cpp:232-249 | Centred exactly on the standard axis ids X..Y, ORIENTATION, Z..HAT_Y and RUDDER..WHEEL; the triggers, the throttle, the pedals, the unmapped id -1 and every generic id are not centred |
| Joystick.AxisTablesAgree | services/inputflinger/reader/mapper/JoystickInputMapper.cpp:232-249 | Compatibility axes do not chain, and neither a trigger nor its pedal duplicate is centred. An unmapped axis (-1) and every generic axis are not centred |
| Joystick.Min | services/inputflinger/reader/mapper/JoystickInputMapper.cpp:221 | The key begin() reaches is in the table and no key is smaller |
| Joystick.Begin | services/inputflinger/reader/mapper/JoystickInputMapper.cpp:146 | The iterator's start is the smallest key |
| Joystick.PruneIterationAsWritten | services/inputflinger/reader/mapper/JoystickInputMapper.cpp:221-229 | One pass of pruneAxes as written: the table is unchanged if and only if explicitly mapped axes are spared and begin() is one; otherwise exactly begin() is erased |
| Joystick.PruneAsWritten | services/inputflinger/reader/mapper/JoystickInputMapper.cpp:220-230 | Passes of the loop as written only erase entries, never go below MAX_AXES, leave a table within MAX_AXES alone, and without sparing erase one axis per pass until MAX_AXES remain |
| Joystick.PruneAsWrittenNeverEnds | services/inputflinger/reader/mapper/JoystickInputMapper.cpp:220-230 | As written, pruneAxes(true) with too many axes and an explicitly mapped lowest key leaves the table unchanged on every pass, so its loop never ends |
| Joystick.CreateAxis | services/inputflinger/reader/mapper/JoystickInputMapper.cpp:123-131 | The record is explicitly mapped if and only if the key layout mapped the axis; an unmapped axis is a normal axis with no id |
| Joystick.JoystickInputMapper.constructor | services/inputflinger/reader/mapper/JoystickInputMapper.cpp:23-25 | A new mapper has no axes |
| Joystick.JoystickInputMapper.HaveAxis | services/inputflinger/reader/mapper/JoystickInputMapper.cpp:209-218 | True if and only if some axis has the id or is split with that id as its high axis |
| Joystick.JoystickInputMapper.PruneAxes | services/inputflinger/reader/mapper/JoystickInputMapper.cpp:220-230 | The surviving entries are unchanged. The removed keys are smaller than every surviving candidate, and are never explicitly mapped when those are spared. A table within MAX_AXES is untouched and no more than needed is removed. Without sparing, exactly MAX_AXES remain; with sparing, more remain only when all of them are explicitly mapped |
| Joystick.JoystickInputMapper.AssignGenericAxisIds | services/inputflinger/reader/mapper/JoystickInputMapper.cpp:145-166 | Every remaining axis has an id and axes that had one are untouched. Each new id is the next free generic id: no axis reported it before and every generic id below it is reported by some axis. Ids increase with the raw axis code, and only the id of such an axis changes. Only axes without an id are erased, each after all that got one, and only once every generic id is taken |
| Joystick.JoystickInputMapper.Reconfigure | services/inputflinger/reader/mapper/JoystickInputMapper.cpp:107-169 | Only the first configuration changes the table. After it, at most MAX_AXES axes remain, every one with an id, and each is an old axis or a raw axis the joystick claims |
| Joystick.JoystickInputMapper.CollectAxes | services/inputflinger/reader/mapper/JoystickInputMapper.cpp:113-133 | Exactly the claimed raw axes with axis info are added, as CreateAxis records; existing entries are kept |
| Joystick.NoClash | services/inputflinger/reader/mapper/JoystickInputMapper.cpp:148-152 | An id haveAxis rejects in the current table, with nothing erased yet, is not reported by the table as it was |
| Joystick.KeepsCoverage | services/inputflinger/reader/mapper/JoystickInputMapper.cpp:161 | Erasing an axis with no id yet loses no id from the set reported by the old or the current table |
| Joystick.MappedStep | services/inputflinger/reader/mapper/JoystickInputMapper.cpp:165 | Passing an axis that already has an id keeps the loop's invariant |
| Joystick.TakenIdStep | services/inputflinger/reader/mapper/JoystickInputMapper.cpp:149-151 | Skipping an id some axis reports keeps the loop's invariant |
| Joystick.AssignStep | services/inputflinger/reader/mapper/JoystickInputMapper.cpp:154-156 | Assigning a free generic id to the axis at the iterator keeps the loop's invariant |
| Joystick.EraseStep | services/inputflinger/reader/mapper/JoystickInputMapper.cpp:157-163 | Erasing the axis at the iterator once ids ran out keeps the loop's invariant |
| Joystick.AssignDone | services/inputflinger/reader/mapper/JoystickInputMapper.cpp:145-166 | The loop's invariant at the end of the table is the outcome AssignGenericAxisIds promises |
| Joystick.GenericIdsAreUnique | services/inputflinger/reader/mapper/JoystickInputMapper.cpp:145-156 | After the loop a generic id handed out is reported by its own axis only: not by another axis, and not by the axis's own high half |

## Left out

- Locking and atomics in VsyncModulator (`std::mutex`, the atomic loads of the timestamps): the model is sequential.
- Binder plumbing: `linkToDeath` and `unlinkToDeath` become set insert and erase, and a token is a number.
- The `ALOGW`, `ALOGI` and `ALOGE` messages (the last is sendAck's report of a failed send).
- The clock `mNow`: its reading is an argument of the events that use it.
- The `SFTRACE_INT` tracing in `updateVsyncConfigLocked`, and the trace block inside `read`: telemetry only.
- MIN_EARLY_TRANSACTION_FRAMES and MIN_EARLY_GPU_FRAMES come from a header that is not part of this model. They are fixed at 2. The invariant lemmas and GpuCompositionScenario use only their positivity; EarlyTransactionScenario counts its two refreshes for the value 2.
- The same applies to:
  - MAX_RECEIVE_BUFFER_EVENT_COUNT;
  - SENSOR_TYPE_ADDITIONAL_INFO;
  - WAKE_UP_SENSOR_EVENT_NEEDS_ACK;
  - PointerCoords::MAX_AXES and ABS_MAX;
  - the NDK axis ids.

  Their usual values are used.
- The initial modulator state (`Late`, no requests, empty windows, zero clocks, the late config cached) comes from the header's member initialisers, which are not part of this model.
- Timestamps are unbounded integers: nanosecond overflow is not modelled.
- Sensor.SensorEventQueue.SendAck: `mNumAcksToSend` is an unbounded integer, so the `int` overflow after very many failed sends is not modelled.
- SensorEventQueue I/O:
  - BitTube send and receive, the Looper, `waitForEvent`, `wake` and `injectSensorEvent`;
  - the enable, disable, flush and rate binder calls.

  `recvObjects`' outcome is an argument of `Read`, and the success of `::send` is an argument of `SendAck`.
- `requestAdditionalInfo` is set outside the source modelled here. In the model it is a constructor argument.
- Sensor.Memmove and Sensor.Memcpy are stated element by element on `ASensorEvent` values. Byte-level copying is not modelled.
- `read`'s `count` is stated in events. The `count * sizeof(ASensorEvent)` byte arithmetic is not modelled.
- JoystickInputMapper float numerics:
  - the scaling in `createAxis` and the value transforms in `process`;
  - `filterAxes`, `hasValueChangedSignificantly` and `hasMovedNearerToValueWithinFilteredRange`;
  - the two callers of `getCompatAxis`, which copy floats onto the compatibility axis: `addMotionRange` (reached from `populateDeviceInfo`) duplicates the motion range, and `setPointerCoordsAxisValue` (reached from `process`) duplicates the axis value.
- Also left out: `dump`, `NotifyMotionArgs`, and the device-context queries (`getAbsAxisUsage`, `getAbsoluteAxisInfo`, `mapAxis`). Their answers are the `device` argument of `Reconfigure`.
- libs/vr/libbufferhub/buffer_hub-test.cpp, include/input/MotionPredictor.h and the input dispatcher configuration header are not part of this model.
- Joystick.JoystickInputMapper.PruneAxes models the evidently intended loop, whose iterator moves past a spared axis. The loop as written is modelled by Joystick.PruneAsWritten; see Findings.
- Joystick.JoystickInputMapper.Reconfigure states the bounds that hold for every first configuration. It does not restate the outcomes of its three steps, which their own members state. It calls the corrected PruneAxes, so it returns where the C++ loops forever (see Findings).

## Findings

| source | as written | input that shows it | evidently intended | confidence | as-written member | corrected member |
|---|---|---|---|---|---|---|
| services/inputflinger/reader/mapper/JoystickInputMapper.cpp:220-230 | Every pass of `pruneAxes` re-reads `mAxes.begin()`. With `ignoreExplicitlyMappedAxes` set, `continue` re-tests that same entry when it is explicitly mapped | A joystick with more than 30 axes whose lowest raw axis code is explicitly mapped, at the first `reconfigure` (`pruneAxes(true)`) | Pass over explicitly mapped axes and erase the lowest unmapped ones until at most MAX_AXES remain or none is left to erase | high; not executed | Joystick.PruneAsWrittenNeverEnds | Joystick.JoystickInputMapper.PruneAxes |
