/** Session lifecycle of the module: `start`, `stop`, and the status line
    of the module's menu. */
module Lifecycle {
  import opened SyncState

  /** What `net::rigctl::connect(host, port)` did: returned a client, or
      threw. */
  datatype ConnectResult = ConnectOk | ConnectFailed

  /** `start`: a no-op while running; otherwise connect, and on success
      switch the source to panadapter mode at the configured IF, attach the
      retune handler and mark the session running. A failed connect is
      logged and changes nothing. */
  function Start(s: State, conn: ConnectResult): (o: Outcome)
    ensures s.running ==> o == Outcome(s, [])
    ensures !s.running && conn.ConnectFailed? ==> o == Outcome(s, [])
    ensures o.state.running <==> (s.running || conn.ConnectOk?)
    ensures !s.running && conn.ConnectOk? ==>
      && o.state == s.(running := true, client := Open)
      && o.effects == [SetPanadapterIF(s.ifFreq), SetTuningMode(Panadapter), BindRetune]
    ensures Close !in o.effects && UnbindRetune !in o.effects
    ensures Owned(s) ==> Owned(o.state)
  {
    if s.running then Outcome(s, [])
    else if conn == ConnectFailed then Outcome(s, [])
    else
      Outcome(s.(client := Open, running := true),
              [SetPanadapterIF(s.ifFreq), SetTuningMode(Panadapter), BindRetune])
  }

  /** `stop`: a no-op unless running; otherwise detach the retune handler,
      put the source back to normal tuning, close the client (which stays
      allocated) and mark the session stopped. The code dereferences the
      client when running, hence the precondition. */
  function Stop(s: State): (o: Outcome)
    requires s.running ==> s.client != NoClient
    ensures !s.running ==> o == Outcome(s, [])
    ensures s.running ==> o.state == s.(running := false, client := Closed)
    ensures s.running ==> o.effects == [UnbindRetune, SetTuningMode(Normal), Close]
    ensures s.running ==> Count(o.effects, Close) == 1 && Count(o.effects, UnbindRetune) == 1
    ensures s.running ==> o.effects[|o.effects| - 1] == Close && SetTuningMode(Normal) in o.effects
    ensures !o.state.running
    ensures BindRetune !in o.effects
    ensures Owned(s) ==> Owned(o.state)
  {
    if !s.running then Outcome(s, [])
    else
      var effs := [UnbindRetune, SetTuningMode(Normal), Close];
      assert Count(effs, Close) == 1 && Count(effs, UnbindRetune) == 1;
      Outcome(s.(client := Closed, running := false), effs)
  }

  datatype Status = Connected | Disconnected | Idle

  /** The status shown in the menu: Connected needs a running session with
      an open client, Disconnected a running session whose client exists but
      is not open, and everything else is Idle. */
  function StatusOf(s: State): (st: Status)
    ensures st == Connected <==> s.running && s.client == Open
    ensures st == Disconnected <==> s.running && s.client == Closed
    ensures st == Idle <==> !s.running || s.client == NoClient
  {
    if s.client == Open && s.running then Connected
    else if s.client != NoClient && s.running then
      assert s.client == Closed;
      Disconnected
    else Idle
  }

  /** For an owned client the status tells exactly whether the session runs
      and whether its connection is still open. */
  lemma StatusMeaning(s: State)
    requires Owned(s)
    ensures StatusOf(s) == Idle <==> !s.running
    ensures StatusOf(s) == Connected <==> s.client == Open
    ensures StatusOf(s) == Disconnected <==> s.running && s.client == Closed
  {
  }

  /** A second `start` after a successful one does nothing, whatever the
      connect would have returned. */
  lemma StartIdempotent(s: State, c1: ConnectResult, c2: ConnectResult)
    requires Start(s, c1).state.running
    ensures Start(Start(s, c1).state, c2) == Outcome(Start(s, c1).state, [])
  {
  }

  /** A second `stop` does nothing. */
  lemma StopIdempotent(s: State)
    requires s.running ==> s.client != NoClient
    ensures Stop(Stop(s).state) == Outcome(Stop(s).state, [])
  {
  }

  /** Starting and then stopping a stopped session returns it to where it
      was except that the client is now allocated and closed; the source
      manager is switched to panadapter mode and back to normal, and the
      handler is bound and unbound once each. */
  lemma StartStopRoundTrip(s: State)
    requires !s.running
    ensures Stop(Start(s, ConnectOk).state).state == s.(client := Closed)
    ensures StatusOf(Start(s, ConnectOk).state) == Connected
    ensures StatusOf(Stop(Start(s, ConnectOk).state).state) == Idle
    ensures Start(s, ConnectOk).effects + Stop(Start(s, ConnectOk).state).effects ==
      [SetPanadapterIF(s.ifFreq), SetTuningMode(Panadapter), BindRetune,
       UnbindRetune, SetTuningMode(Normal), Close]
  {
  }
}
