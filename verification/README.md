# Frequency synchronisation of the SDR++ rigctl client module

This project models the core of `BiDiRigctlClientModule`, an SDR++ module that keeps a
radio ("the rig", reached via a rigctl server) and the SDR++ waterfall on the same
frequency, in both directions.

- **Session lifecycle.** `start` connects to the rigctl server. It switches the source
  manager to panadapter mode at the configured IF, binds the retune handler and marks the
  module running. `stop` undoes this and closes the client.
- **Local to rig.** The retune handler records the waterfall frequency. It sends the
  frequency to the rig unless it equals the frequency last read from the rig. This is the
  echo-suppression rule.
- **Rig to local.** Each worker tick reads the rig frequency and records it. When the value
  differs from the waterfall it tunes the selected VFO, first moving the panadapter IF onto
  the rig frequency if the rig lies more than 500 kHz away from the IF.
- **Configuration.** The stored port is converted to a 32-bit `int` and then clamped to
  1..65535. Missing values default to port
  4532 and IF 8830000 Hz.

The model is functional. `SyncState.State` holds `running`, the client (absent, open or
closed), the rig and waterfall frequency mirrors, the IF and the port. Every handler is a
pure function returning an `Outcome`: the new state plus the effects it issued, in order.
The effects are `SetFreq`, `Tune`, `SetPanadapterIF`, `SetTuningMode`, `BindRetune`,
`UnbindRetune` and `Close`. What the outside world answers is an input to the step: the
connect result, and the value `getFreq` returned (negative on failure). `Session.Run`
folds a sequence of events over the steps. The losing of an open connection by the server
is modelled as one more event, `ConnectionLost`. Frequencies are integer Hz: the code
only compares them with `==`, `!=`, `< 0` and `abs(a - b) > 500000`. `Lifecycle.Stop`
and `Sync.WorkerTick` require that a running module has a client, because the code
dereferences the client pointer there without a check. `Session.Step` and `Session.Run`
require the full ownership invariant `SyncState.Owned`: a running module has a client,
and an open client belongs to a running module. Every step preserves that invariant, and
`SyncState.Init` establishes it.

Files: `config.dfy` (module `RigConfig`), `state.dfy` (`SyncState`), `lifecycle.dfy`
(`Lifecycle`), `sync.dfy` (`Sync`), `session.dfy` (`Session`).

## Model

| member | source | states |
|---|---|---|
| RigConfig.Clamp | src/main.cpp:42 | the clamped port lies in the range, equals the input exactly when the input is in range, and is the in-range value nearest to the input |
| RigConfig.ToInt32 | src/main.cpp:41 | the stored integer becomes a 32-bit `int`: the result lies in the int range, is congruent to the input modulo 2^32, and equals the input when the input already fits |
| RigConfig.Load | src/main.cpp:40-46 | the loaded port is always valid; a stored valid port is kept and any other stored value gives a different port; a stored value is replaced by the valid port nearest to its 32-bit conversion, which for a value that fits in 32 bits is the valid port nearest to the value itself; a missing port is 4532; the IF is the stored value or 8830000 |
| RigConfig.LoadWrapsBeforeClamp | src/main.cpp:41-42 | a stored port of 2^32 + 80 wraps to 80 before the clamp, so it loads as 80 and not as 65535 |
| RigConfig.LoadStable | src/main.cpp:40-46 | storing the loaded values and loading them again gives the same configuration |
| SyncState.Init | src/main.cpp:228-242 | a new module is not running, has no client, satisfies the ownership invariant, and takes port and IF from the configuration; the two frequency mirrors are unconstrained |
| Lifecycle.Start | src/main.cpp:87-106 | start while running is the identity with no effects; a failed connect changes nothing; a successful one makes the module running with an open client, emits panadapter IF, panadapter mode and bind in that order, never closes, and preserves the ownership invariant |
| Lifecycle.Stop | src/main.cpp:108-120 | stop while not running is the identity; otherwise the client becomes closed but stays present, running becomes false, nothing else changes, and the effects are exactly unbind, normal tuning mode, Close, in that order |
| Lifecycle.StatusOf | src/main.cpp:166-174 | the status is Connected iff running with an open client, Disconnected iff running with a client that is present but closed, and Idle iff not running or without a client |
| Lifecycle.StatusMeaning | src/main.cpp:163-175 | under the ownership invariant the status is Idle iff not running, Connected iff the client is open, Disconnected iff running with a closed client |
| Lifecycle.StartIdempotent | src/main.cpp:87-89 | once a start has made the module running, any further start changes nothing and emits nothing |
| Lifecycle.StopIdempotent | src/main.cpp:108-110 | a second stop changes nothing and emits nothing |
| Lifecycle.StartStopRoundTrip | src/main.cpp:87-120 | a successful start followed by stop restores the state except that the client is now present and closed, shows Connected then Idle, and emits the six lifecycle effects in order |
| Sync.RetuneHandler | src/main.cpp:178-187 | the waterfall mirror always becomes f and nothing else changes whatever the rig answers; SetFreq(f) is emitted iff the client is open and f differs from the rig mirror, and it is the only possible effect |
| Sync.WorkerTick | src/main.cpp:196-222 | when not running or on a failed read the tick is the identity; otherwise the rig mirror becomes the read value; Tune(read) is emitted iff the read differs from the waterfall; only the rig mirror and the IF may change; the IF changes iff the tick tunes more than 500000 Hz away from it, and then becomes the read value with SetPanadapterIF emitted before the Tune; SetPanadapterIF is emitted iff the IF changes, and a tick emits at most two effects; after a tune the rig is within 500000 Hz of the IF; no rig write is emitted |
| Sync.TuneIsNotEchoed | src/main.cpp:181-219 | after a tick tunes the VFO to the rig frequency r, the retune callback reporting r writes nothing to the rig and leaves both mirrors at r |
| Sync.SetFreqIsNotEchoed | src/main.cpp:181-204 | after the retune callback sends f to the rig, a tick that reads f back does not tune the VFO and leaves both mirrors at f |
| Sync.AgreementIsQuiescent | src/main.cpp:183-204 | when both mirrors equal r, a tick reading r and a callback reporting r leave the state unchanged with no effects |
| Session.Step | src/main.cpp:87-222 | every event preserves the ownership invariant; lifecycle events touch only running and client, a retune only the waterfall mirror, a tick only the rig mirror and the IF; SetFreq comes only from a retune of that frequency and Tune only from a tick that read it; the rig mirror only takes non-negative reads |
| Session.Run | src/main.cpp:189-226 | a whole run preserves the ownership invariant and never changes the port |
| Session.StepCloseBalance | src/main.cpp:103-119 | in one step, closes plus the new running flag equal binds plus the old running flag, and unbinds equal closes |
| Session.RunCloseBalance | src/main.cpp:87-120 | over a whole run, every Close is matched by a session that was running at the start or was started by the run, so a connection is never closed twice; every Close comes with an unbind |
| Session.WritesHaveCauses | src/main.cpp:178-222 | every frequency written to the rig was reported by a retune event of the run, and every frequency tuned was read from the rig by a tick of the run |
| Session.MirrorOwnership | src/main.cpp:178-222 | over a run, the waterfall mirror changes only to a value some retune reported, the rig mirror only to a non-negative value some tick read, and the IF only to a frequency a tick read and tuned to |
| Session.PortAlwaysValid | src/main.cpp:40-43 | from any loaded configuration, the port stays in 1..65535 through any run |
| Session.AgreementIsStable | src/main.cpp:194-222 | with both mirrors equal to r, any number of ticks that read r change nothing and emit nothing |
| Session.RigChangeSettles | src/main.cpp:196-222 | a rig change to r followed by the retune echo and another tick issues exactly one Tune, no rig write, and ends with both mirrors at r and the rig within 500000 Hz of the IF |
| Session.LocalChangeSettles | src/main.cpp:178-222 | a waterfall change to f, the tick that reads it back and a repeated report of f emit exactly one SetFreq(f) and nothing else, ending with both mirrors at f |

## Left out

- Floating point: frequencies are `double` in the source and integer Hz here. Equality and
  the sign test do not depend on rounding for integral Hz values.
- Sync.WorkerTick: the 500 kHz test is an exact integer distance. src/main.cpp:210 calls an
  unqualified `abs` on a `double`, and which overload that is depends on headers included
  indirectly. If it is the C `int abs(int)`, the difference is first converted to `int`. A
  difference of 2^31 Hz or more then overflows, and the test can differ from the model's.
- Threads, the recursive mutex, the condition variable, the 250 ms wait and the
  destructor's shutdown of the worker (src/main.cpp:58-69, 193-194, 224). Each tick runs
  under the module mutex, so it is one atomic step here.
- The rigctl wire protocol, `connect`, `getFreq`, `setFreq`, `isOpen` and `close`. They
  become step inputs (connect result, read value), effects (`SetFreq`, `Close`) or the
  client state. A failed `setFreq` is only logged, so its answer is not an input.
- The source manager and the tuner. `setPanadpterIF`, `setTuningMode`, handler
  binding and `tuner::tune` are effects.
- Session.RigChangeSettles: it assumes the answer of the source to a `Tune(r)`, written as
  the event sequence. It assumes the retune callback reports exactly `r`, and that no other
  callback arrives between the tick and that report. The code does not guarantee either.
  The callback comes from code outside this module. The recursive mutex
  (src/main.cpp:231) also lets a callback re-enter during a tick, for instance from the
  source-manager call at src/main.cpp:212.
- RigConfig.Load: the stored port is taken to be an integer, converted with 32-bit
  wrap-around (the C++20 rule for a narrowing integer conversion, and what common
  compilers did before). A stored floating-point or non-numeric value goes through the
  JSON library's own conversion, which is not modelled.
- Configuration persistence: loading and saving the JSON file, and the write of the new IF
  to the configuration in a tick (src/main.cpp:24, 35-47, 213-215, 251-268). The host
  string is not modelled. It only flows into `connect`.
- The menu widgets (src/main.cpp:123-160). This includes editing the host, port and IF
  from the UI, so an IF edited by hand is outside the claim of `Session.MirrorOwnership`.
  The port entered there is not clamped. Only the status decision is modelled.
- `enable`, `disable` and `postInit` (src/main.cpp:71-85). They only set a flag nothing in
  the core reads.
- Selection of the VFO tuned (`gui::waterfall.selectedVFO`); `Tune` carries only the
  frequency.
