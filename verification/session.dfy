/** A module instance over time: the events that reach it, one atomic step
    per event, and properties of whole runs. */
module Session {
  import opened RigConfig
  import opened SyncState
  import opened Lifecycle
  import opened Sync

  datatype Event =
    | StartPressed(conn: ConnectResult)  // `start`, with what connect did
    | StopPressed                        // `stop`
    | Retuned(freq: int)                 // the source manager fires onRetune
    | Poll(read: int)                    // one worker tick, with what getFreq returned
    | ConnectionLost                     // the rigctl server drops the connection

  /** One event. The retune handler is bound by `start` and unbound by
      `stop`, so a retune reaches the module only while it runs; the worker
      thread ticks for the whole life of the module. */
  function Step(s: State, e: Event): (o: Outcome)
    requires Owned(s)
    ensures Owned(o.state)
    ensures e.StartPressed? || e.StopPressed? || e.ConnectionLost? ==>
      o.state == s.(running := o.state.running, client := o.state.client)
    ensures e.Retuned? ==> o.state == s.(waterfallFrequency := o.state.waterfallFrequency)
    ensures e.Poll? ==> o.state == s.(rigFrequency := o.state.rigFrequency, ifFreq := o.state.ifFreq)
    ensures forall i :: 0 <= i < |o.effects| && o.effects[i].SetFreq? ==> e == Retuned(o.effects[i].freq)
    ensures forall i :: 0 <= i < |o.effects| && o.effects[i].Tune? ==> e == Poll(o.effects[i].freq)
    ensures o.state.waterfallFrequency != s.waterfallFrequency ==> e == Retuned(o.state.waterfallFrequency)
    ensures o.state.ifFreq != s.ifFreq ==> e == Poll(o.state.ifFreq) && Tune(o.state.ifFreq) in o.effects
    ensures o.state.rigFrequency != s.rigFrequency ==> e == Poll(o.state.rigFrequency) && o.state.rigFrequency >= 0
  {
    match e
    case StartPressed(conn) => Start(s, conn)
    case StopPressed => Stop(s)
    case Retuned(f) => if s.running then RetuneHandler(s, f) else Outcome(s, [])
    case Poll(read) => WorkerTick(s, read)
    case ConnectionLost => Outcome(if s.client == Open then s.(client := Closed) else s, [])
  }

  /** The events in order; the effects are concatenated in order. */
  function Run(s: State, evs: seq<Event>): (o: Outcome)
    requires Owned(s)
    ensures Owned(o.state)
    ensures o.state.port == s.port
    decreases |evs|
  {
    if |evs| == 0 then Outcome(s, [])
    else
      var first := Step(s, evs[0]);
      var rest := Run(first.state, evs[1..]);
      Outcome(rest.state, first.effects + rest.effects)
  }

  function Bit(b: bool): nat
  {
    if b then 1 else 0
  }

  /** One step closes the client only when it stops a running session, and
      binds the handler only when it starts one. */
  lemma StepCloseBalance(s: State, e: Event)
    requires Owned(s)
    ensures Count(Step(s, e).effects, Close) + Bit(Step(s, e).state.running)
         == Count(Step(s, e).effects, BindRetune) + Bit(s.running)
    ensures Count(Step(s, e).effects, UnbindRetune) == Count(Step(s, e).effects, Close)
  {
  }

  /** Each close of the client ends a session that was running at the
      beginning or was started by the run, and comes with the unbinding of
      the handler: the client is never closed twice for one connection. */
  lemma {:induction false} RunCloseBalance(s: State, evs: seq<Event>)
    requires Owned(s)
    ensures Count(Run(s, evs).effects, Close) + Bit(Run(s, evs).state.running)
         == Count(Run(s, evs).effects, BindRetune) + Bit(s.running)
    ensures Count(Run(s, evs).effects, UnbindRetune) == Count(Run(s, evs).effects, Close)
    decreases |evs|
  {
    if |evs| > 0 {
      var first := Step(s, evs[0]);
      var rest := Run(first.state, evs[1..]);
      StepCloseBalance(s, evs[0]);
      RunCloseBalance(first.state, evs[1..]);
      CountAppend(first.effects, rest.effects, Close);
      CountAppend(first.effects, rest.effects, BindRetune);
      CountAppend(first.effects, rest.effects, UnbindRetune);
    }
  }

  /** Every frequency written to the rig was reported by a retune callback,
      and every frequency the VFO is tuned to was read from the rig. */
  lemma {:induction false} WritesHaveCauses(s: State, evs: seq<Event>)
    requires Owned(s)
    ensures forall i :: 0 <= i < |Run(s, evs).effects| && Run(s, evs).effects[i].SetFreq? ==>
      Retuned(Run(s, evs).effects[i].freq) in evs
    ensures forall i :: 0 <= i < |Run(s, evs).effects| && Run(s, evs).effects[i].Tune? ==>
      Poll(Run(s, evs).effects[i].freq) in evs
    decreases |evs|
  {
    if |evs| > 0 {
      var first := Step(s, evs[0]);
      var rest := Run(first.state, evs[1..]);
      WritesHaveCauses(first.state, evs[1..]);
      var effs := first.effects + rest.effects;
      forall i | 0 <= i < |effs|
        ensures effs[i].SetFreq? ==> Retuned(effs[i].freq) in evs
        ensures effs[i].Tune? ==> Poll(effs[i].freq) in evs
      {
        if i < |first.effects| {
          assert effs[i] == first.effects[i];
        } else {
          assert effs[i] == rest.effects[i - |first.effects|];
        }
      }
    }
  }

  /** The waterfall mirror is written only by the retune callback, the rig
      mirror only by a successful read, and the panadapter IF only by a
      tick that tunes the VFO. */
  lemma {:induction false} MirrorOwnership(s: State, evs: seq<Event>)
    requires Owned(s)
    ensures Run(s, evs).state.waterfallFrequency != s.waterfallFrequency ==>
      Retuned(Run(s, evs).state.waterfallFrequency) in evs
    ensures Run(s, evs).state.ifFreq != s.ifFreq ==>
      Poll(Run(s, evs).state.ifFreq) in evs && Tune(Run(s, evs).state.ifFreq) in Run(s, evs).effects
    ensures Run(s, evs).state.rigFrequency != s.rigFrequency ==>
      Poll(Run(s, evs).state.rigFrequency) in evs && Run(s, evs).state.rigFrequency >= 0
    decreases |evs|
  {
    if |evs| > 0 {
      var first := Step(s, evs[0]);
      var rest := Run(first.state, evs[1..]);
      MirrorOwnership(first.state, evs[1..]);
      assert evs == [evs[0]] + evs[1..];
    }
  }

  /** The port a run works with is always a valid TCP port. */
  lemma PortAlwaysValid(st: Stored, rig0: int, waterfall0: int, evs: seq<Event>)
    ensures ValidPort(Run(Init(Load(st), rig0, waterfall0), evs).state.port)
  {
  }

  function Polls(r: int, n: nat): (evs: seq<Event>)
    ensures |evs| == n
    ensures forall i :: 0 <= i < n ==> evs[i] == Poll(r)
  {
    seq(n, i => Poll(r))
  }

  /** With the rig and the waterfall agreeing on r, any number of ticks that
      keep reading r change nothing and emit nothing. */
  lemma {:induction false} AgreementIsStable(s: State, r: int, n: nat)
    requires Owned(s)
    requires s.rigFrequency == r && s.waterfallFrequency == r
    ensures Run(s, Polls(r, n)) == Outcome(s, [])
    decreases n
  {
    if n > 0 {
      AgreementIsQuiescent(s, r);
      assert Polls(r, n)[1..] == Polls(r, n - 1);
      AgreementIsStable(s, r, n - 1);
    }
  }

  /** No ping-pong from the rig side: the rig moves to r, a tick tunes the
      VFO to r (moving the IF if needed), the source reports r back, and the
      next tick reads r again. Exactly one tune is issued, nothing is
      written to the rig, and both mirrors end at r. */
  lemma RigChangeSettles(s: State, r: int)
    requires Owned(s) && s.running
    requires r >= 0 && r != s.waterfallFrequency
    ensures var o := Run(s, [Poll(r), Retuned(r), Poll(r)]);
      && Count(o.effects, Tune(r)) == 1
      && (forall i :: 0 <= i < |o.effects| ==> !o.effects[i].SetFreq?)
      && o.state.rigFrequency == r && o.state.waterfallFrequency == r
      && Dist(o.state.rigFrequency, o.state.ifFreq) <= IfWindow
  {
    var evs := [Poll(r), Retuned(r), Poll(r)];
    var o1 := Step(s, Poll(r));
    var o2 := Step(o1.state, Retuned(r));
    var o3 := Step(o2.state, Poll(r));
    AgreementIsQuiescent(o2.state, r);
    assert evs[1..][1..][1..] == [];
    assert Run(o2.state, evs[1..][1..]) == Outcome(o3.state, o3.effects + []);
    assert Run(o1.state, evs[1..]) == Outcome(o3.state, o2.effects + o3.effects);
    assert o2.effects == [] && o3.effects == [];
    assert Run(s, evs).effects == o1.effects + [] + [];
  }

  /** No ping-pong from the local side: the waterfall moves to f, f is sent
      to the rig, the next tick reads f from the rig, and the source reports
      f again. Exactly one write reaches the rig, the VFO is never tuned,
      and both mirrors end at f. */
  lemma LocalChangeSettles(s: State, f: int)
    requires Owned(s) && s.client == Open
    requires f >= 0 && f != s.rigFrequency
    ensures var o := Run(s, [Retuned(f), Poll(f), Retuned(f)]);
      && o.effects == [SetFreq(f)]
      && o.state.rigFrequency == f && o.state.waterfallFrequency == f
  {
    var evs := [Retuned(f), Poll(f), Retuned(f)];
    var o1 := Step(s, Retuned(f));
    var o2 := Step(o1.state, Poll(f));
    var o3 := Step(o2.state, Retuned(f));
    SetFreqIsNotEchoed(s, f);
    AgreementIsQuiescent(o2.state, f);
    assert evs[1..][1..][1..] == [];
    assert Run(o2.state, evs[1..][1..]) == Outcome(o3.state, o3.effects + []);
    assert Run(o1.state, evs[1..]) == Outcome(o3.state, o2.effects + o3.effects);
    assert o2.effects == [] && o3.effects == [];
    assert Run(s, evs).effects == o1.effects + [] + [];
  }
}
