/** The two synchronisation paths: local-to-rig (the retune callback) and
    rig-to-local (one tick of the worker loop, taken under the module mutex
    and therefore atomic). */
module Sync {
  import opened RigConfig
  import opened SyncState

  /** `retuneHandler(f)`: the waterfall reports frequency f. It is recorded;
      then, if the client is open and f is not the frequency last read from
      the rig, f is sent to the rig. A failed `set_freq` is only logged, so
      the state does not depend on the rig's answer. */
  function RetuneHandler(s: State, f: int): (o: Outcome)
    ensures o.state == s.(waterfallFrequency := f)
    ensures SetFreq(f) in o.effects <==> s.client == Open && f != s.rigFrequency
    ensures o.effects == [] || o.effects == [SetFreq(f)]
  {
    var s1 := s.(waterfallFrequency := f);
    if s.client != Open then Outcome(s1, [])
    else if s1.waterfallFrequency == s1.rigFrequency then Outcome(s1, [])
    else Outcome(s1, [SetFreq(f)])
  }

  /** One pass of the worker loop body with `read` the value `getFreq`
      returned (negative on failure). While running, a successful read is
      stored as the rig frequency, and if it differs from the waterfall the
      local VFO is tuned to it, first moving the panadapter IF onto it when
      it lies more than `IfWindow` away. The waterfall frequency is left to
      the retune callback. */
  function WorkerTick(s: State, read: int): (o: Outcome)
    requires s.running ==> s.client != NoClient
    ensures !s.running || read < 0 ==> o == Outcome(s, [])
    ensures s.running && read >= 0 ==> o.state.rigFrequency == read
    ensures Tune(read) in o.effects <==> s.running && read >= 0 && read != s.waterfallFrequency
    ensures o.state == s.(rigFrequency := o.state.rigFrequency, ifFreq := o.state.ifFreq)
    ensures o.state.ifFreq != s.ifFreq <==> Tune(read) in o.effects && Dist(read, s.ifFreq) > IfWindow
    ensures o.state.ifFreq != s.ifFreq ==> o.state.ifFreq == read && SetPanadapterIF(read) in o.effects
    ensures Tune(read) in o.effects ==> Dist(o.state.rigFrequency, o.state.ifFreq) <= IfWindow
    ensures forall e :: e in o.effects ==> e == Tune(read) || e == SetPanadapterIF(read)
    ensures o.effects != [] ==> o.effects[|o.effects| - 1] == Tune(read)
    ensures Count(o.effects, Tune(read)) <= 1
    ensures SetPanadapterIF(read) in o.effects <==> o.state.ifFreq != s.ifFreq
    ensures |o.effects| <= 2
  {
    if !s.running then Outcome(s, [])
    else if read < 0 then Outcome(s, [])
    else
      var s1 := s.(rigFrequency := read);
      if s1.rigFrequency == s1.waterfallFrequency then Outcome(s1, [])
      else if Dist(s1.rigFrequency, s1.ifFreq) > IfWindow then
        var effs := [SetPanadapterIF(read), Tune(read)];
        assert [Tune(read)][1..] == [] && Count([Tune(read)], Tune(read)) == 1;
        assert effs[1..] == [Tune(read)] && Count(effs, Tune(read)) == 1;
        Outcome(s1.(ifFreq := read), effs)
      else
        Outcome(s1, [Tune(read)])
  }

  /** Echo suppression, rig to local and back: once a tick has tuned the
      VFO to the rig's frequency r, the retune callback that reports r does
      not write r back to the rig, and leaves both mirrors equal to r. */
  lemma TuneIsNotEchoed(s: State, r: int)
    requires s.running ==> s.client != NoClient
    requires Tune(r) in WorkerTick(s, r).effects
    ensures RetuneHandler(WorkerTick(s, r).state, r).effects == []
    ensures RetuneHandler(WorkerTick(s, r).state, r).state.rigFrequency == r
    ensures RetuneHandler(WorkerTick(s, r).state, r).state.waterfallFrequency == r
  {
  }

  /** Echo suppression, local to rig and back: once the retune callback has
      sent f to the rig, the tick that reads f back from the rig does not
      tune the VFO, and leaves both mirrors equal to f. */
  lemma SetFreqIsNotEchoed(s: State, f: int)
    requires Owned(s)
    requires SetFreq(f) in RetuneHandler(s, f).effects
    requires f >= 0
    ensures WorkerTick(RetuneHandler(s, f).state, f).effects == []
    ensures WorkerTick(RetuneHandler(s, f).state, f).state.rigFrequency == f
    ensures WorkerTick(RetuneHandler(s, f).state, f).state.waterfallFrequency == f
  {
  }

  /** No write when the values agree: with the two mirrors equal to r, a
      tick that reads r and a callback that reports r both leave the state
      as it is and emit nothing. */
  lemma AgreementIsQuiescent(s: State, r: int)
    requires s.running ==> s.client != NoClient
    requires s.rigFrequency == r && s.waterfallFrequency == r
    ensures WorkerTick(s, r) == Outcome(s, [])
    ensures RetuneHandler(s, r) == Outcome(s, [])
  {
  }
}
