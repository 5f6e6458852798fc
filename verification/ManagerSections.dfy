/** The state that internal/vpn/manager.go guards with `mu`, and one function for each critical section. */
module ManagerSections {
  import opened Basics

  /** A VPN session, numbered in the order the drivers opened them. */
  type Sid = nat

  /** A cancellable context. */
  type Token = nat

  datatype Selection = Auto | Manual

  datatype Phase = Idle | Connecting | Connected | Direct | Failed

  datatype Shared = Shared(
    session: Option<Sid>, node: Ip, protocol: string,
    selection: Selection, manualIP: Ip, manualProtocol: string,
    phase: Phase, lastErr: Option<string>,
    directMode: bool, paused: bool,
    connectingIP: Ip, cancelConnect: Option<Token>, cancelAutomatic: Option<Token>,
    connectAttempt: nat, generation: nat)

  /** Everything that decides where SOCKS5 traffic goes and what is selected. */
  datatype Route = Route(
    session: Option<Sid>, node: Ip, protocol: string,
    selection: Selection, manualIP: Ip, manualProtocol: string,
    directMode: bool, generation: nat)

  function RouteOf(sh: Shared): Route {
    Route(sh.session, sh.node, sh.protocol, sh.selection, sh.manualIP, sh.manualProtocol, sh.directMode, sh.generation)
  }

  function Opt<T>(o: Option<T>): set<T> {
    if o.Some? then {o.value} else {}
  }

  /** NewManager: automatic unless the metadata rows restore a manual selection. */
  function Initial(saved: Option<(Ip, string)>): Shared {
    var (ip, forced) := if saved.Some? then saved.value else ("", "");
    Shared(None, "", "", if saved.Some? then Manual else Auto, ip, forced, Idle, None, false, false,
           "", None, None, 0, 0)
  }

  function SetPhase(sh: Shared, phase: Phase, err: Option<string>): Shared {
    sh.(phase := phase, lastErr := err)
  }

  function SetAutomatic(sh: Shared): Shared {
    sh.(selection := Auto, manualIP := "", manualProtocol := "")
  }

  /** SetDirectMode(true) when not already paused. */
  function Pause(sh: Shared): Shared {
    sh.(session := None, directMode := true, paused := true, phase := Direct, lastErr := None,
        generation := sh.generation + 1, cancelConnect := None, cancelAutomatic := None,
        connectAttempt := sh.connectAttempt + 1, connectingIP := "")
  }

  /** SetDirectMode(false) when paused. */
  function Resume(sh: Shared): Shared {
    sh.(paused := false, phase := Connecting, lastErr := None)
  }

  function BeginCandidate(sh: Shared, ip: Ip, cancel: Token): Shared {
    sh.(paused := false, cancelAutomatic := None, cancelConnect := Some(cancel),
        connectAttempt := sh.connectAttempt + 1, connectingIP := ip, phase := Connecting, lastErr := None)
  }

  function FinishCandidate(sh: Shared, attempt: nat, err: Option<string>): Shared {
    if sh.connectAttempt != attempt then sh
    else
      var done := sh.(connectingIP := "", cancelConnect := None);
      if err.None? then done
      else done.(phase := if sh.session.Some? then Connected else Failed, lastErr := err)
  }

  predicate MayInstall(sh: Shared, attempt: nat) {
    !sh.paused && (attempt == 0 || sh.connectAttempt == attempt)
  }

  function Install(sh: Shared, sid: Sid, ip: Ip, protocol: string, selection: Selection, forced: string): Shared {
    sh.(session := Some(sid), node := ip, protocol := protocol, selection := selection, directMode := false,
        manualIP := if selection.Manual? then ip else "",
        manualProtocol := if selection.Manual? then forced else "",
        phase := Connected, lastErr := None, generation := sh.generation + 1)
  }

  /** failover goes ahead only for the current session (or an unnamed one) and never while paused. */
  predicate FailoverApplies(sh: Shared, expected: Option<Sid>) {
    (expected.Some? ==> sh.session == expected) && !sh.paused
  }

  function Failover(sh: Shared, fallbackToDirect: bool, cause: string): Shared {
    var routed := if fallbackToDirect
                  then sh.(session := None, directMode := true, phase := Connecting, generation := sh.generation + 1)
                  else sh;
    SetAutomatic(routed).(lastErr := Some(cause))
  }

  /** The sweep Close makes before it waits for background tasks. */
  function Sweep(sh: Shared): Shared {
    sh.(session := None, generation := sh.generation + 1, cancelConnect := None, cancelAutomatic := None,
        connectAttempt := sh.connectAttempt + 1, connectingIP := "")
  }

  /** The sweep Close makes after the wait. */
  function LateSweep(sh: Shared): Shared {
    sh.(session := None, generation := sh.generation + 1)
  }
}
