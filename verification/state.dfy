/** The state of one `BiDiRigctlClientModule` instance as seen by its
    frequency synchronisation, and the effects its handlers have on the
    world outside it (the rigctl server, the SDR++ source manager and
    tuner). Every handler is a pure step returning the new state together
    with the effects it issued, in the order it issued them. */
module SyncState {
  import opened RigConfig

  /** The rigctl client pointer: absent, or present and open, or present
      and closed (closed by `stop` or by the server going away). */
  datatype Client = NoClient | Open | Closed

  /** Tuning mode of the SDR++ source manager. */
  datatype TuningMode = Normal | Panadapter

  datatype Effect =
    | SetFreq(freq: int)            // rigctl `set_freq` sent to the rig
    | Tune(freq: int)               // local VFO tuned (normal tuner mode)
    | SetPanadapterIF(freq: int)    // source manager panadapter IF
    | SetTuningMode(mode: TuningMode)
    | BindRetune                    // retune handler attached to the source
    | UnbindRetune                  // retune handler detached
    | Close                         // rigctl client closed

  /** Half-width of the window around the panadapter IF inside which a rig
      frequency is tuned without moving the IF. */
  const IfWindow: int := 500000

  datatype State = State(
    running: bool,
    client: Client,
    rigFrequency: int,        // last frequency read from the rig
    waterfallFrequency: int,  // last frequency reported by the retune callback
    ifFreq: int,              // panadapter IF
    port: int)                // rigctl server port

  datatype Outcome = Outcome(state: State, effects: seq<Effect>)

  /** The client is owned by the running session: a running session has a
      client, and an open client belongs to a running session. */
  predicate Owned(s: State)
  {
    && (s.running ==> s.client != NoClient)
    && (s.client == Open ==> s.running)
  }

  /** The state right after construction. The two frequency mirrors are
      never initialised by the module, so they are parameters here. */
  function Init(cfg: Config, rig0: int, waterfall0: int): (s: State)
    ensures !s.running && s.client == NoClient
    ensures Owned(s)
    ensures s.port == cfg.port && s.ifFreq == cfg.ifFreq
    ensures s.rigFrequency == rig0 && s.waterfallFrequency == waterfall0
  {
    State(false, NoClient, rig0, waterfall0, cfg.ifFreq, cfg.port)
  }

  /** Number of occurrences of effect `e` in `effs`. */
  function Count(effs: seq<Effect>, e: Effect): nat
  {
    if |effs| == 0 then 0
    else (if effs[0] == e then 1 else 0) + Count(effs[1..], e)
  }

  lemma {:induction false} CountAppend(a: seq<Effect>, b: seq<Effect>, e: Effect)
    ensures Count(a + b, e) == Count(a, e) + Count(b, e)
  {
    if |a| == 0 {
      assert a + b == b;
    } else {
      assert (a + b)[1..] == a[1..] + b;
      CountAppend(a[1..], b, e);
    }
  }

  lemma {:induction false} CountZero(effs: seq<Effect>, e: Effect)
    ensures Count(effs, e) == 0 <==> e !in effs
  {
    if |effs| > 0 {
      CountZero(effs[1..], e);
      assert effs == [effs[0]] + effs[1..];
    }
  }
}
