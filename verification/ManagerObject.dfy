/**
 The Manager object: its fields, the critical sections that update them in place, and connectNode and activate as the
 loops they are. Sessions are numbered in the order the drivers open them; `closed` lists the Close calls in order.
 */
module ManagerObject {
  import opened Basics
  import opened ManagerSections

  /** What connectNode knows before it calls a driver: the node, the priority list and the registered drivers. */
  datatype Target = Target(ipv4: bool, protocols: seq<string>, priority: seq<string>, drivers: set<string>)

  /** How the world answers one turn of its loop: whether the context lives, the driver starts, the probe succeeds. */
  datatype Reaction = Reaction(live: bool, starts: bool, healthy: bool)

  /** What happens when connectNode tries one protocol of its list. */
  datatype Trial = Trial(protocol: string, live: bool, offered: bool, available: bool, starts: bool, healthy: bool)

  /** validateForcedProtocol. */
  predicate Forcible(target: Target, forced: string) {
    forced == "" || (forced in target.protocols && forced in target.drivers)
  }

  /** The protocols to try: those of the priority list, or the forced one; none for an endpoint that is not IPv4. */
  function Eligible(target: Target, forced: string): seq<string> {
    if !target.ipv4 || !Forcible(target, forced) then []
    else if forced != "" then [forced]
    else target.priority
  }

  function TrialOf(protocol: string, target: Target, r: Reaction): Trial {
    Trial(protocol, r.live, protocol in target.protocols, protocol in target.drivers, r.starts, r.healthy)
  }

  function TrialsOf(list: seq<string>, target: Target, world: nat -> Reaction): (trials: seq<Trial>)
    ensures |trials| == |list|
  {
    seq(|list|, i requires 0 <= i < |list| => TrialOf(list[i], target, world(i)))
  }

  function Trials(target: Target, forced: string, world: nat -> Reaction): seq<Trial> {
    TrialsOf(Eligible(target, forced), target, world)
  }

  /** The driver is called and returns a session. */
  predicate Opens(t: Trial) { t.offered && t.available && t.starts }

  predicate Usable(t: Trial, requireHealth: bool) { Opens(t) && (requireHealth ==> t.healthy) }

  /** The first trial that is usable or finds its context cancelled. */
  function FirstStop(trials: seq<Trial>, requireHealth: bool): (k: nat)
    ensures k <= |trials|
    ensures forall j :: 0 <= j < k ==> trials[j].live && !Usable(trials[j], requireHealth)
    ensures k < |trials| ==> !trials[k].live || Usable(trials[k], requireHealth)
  {
    if trials == [] || !trials[0].live || Usable(trials[0], requireHealth) then 0
    else 1 + FirstStop(trials[1..], requireHealth)
  }

  /** The protocol connectNode settles on, if any. */
  function Chosen(trials: seq<Trial>, requireHealth: bool): Option<nat> {
    var k := FirstStop(trials, requireHealth);
    if k < |trials| && trials[k].live then Some(k) else None
  }

  /** The protocol of a successful connectNode. */
  function Protocol(target: Target, forced: string, requireHealth: bool, world: nat -> Reaction): string
    requires Chosen(Trials(target, forced, world), requireHealth).Some?
  {
    var trials := Trials(target, forced, world);
    trials[Chosen(trials, requireHealth).value].protocol
  }

  function Opened(trials: seq<Trial>): nat {
    if trials == [] then 0 else Opened(trials[..|trials| - 1]) + (if Opens(trials[|trials| - 1]) then 1 else 0)
  }

  /** The sessions from, from + 1, ..., to - 1. */
  function Range(from: Sid, to: Sid): seq<Sid>
    requires from <= to
  {
    seq(to - from, i requires 0 <= i => from + i)
  }

  function Listed(sid: Option<Sid>): seq<Sid> {
    if sid.Some? then [sid.value] else []
  }

  class Manager {
    var session: Option<Sid>
    var node: Ip
    var protocol: string
    var selection: Selection
    var manualIP: Ip
    var manualProtocol: string
    var phase: Phase
    var lastErr: Option<string>
    var directMode: bool
    var connectionPaused: bool
    var connectingIP: Ip
    var cancelConnect: Option<Token>
    var cancelAutomatic: Option<Token>
    var connectAttempt: nat
    var generation: nat

    var nextSid: Sid
    var closed: seq<Sid>
    var canceled: set<Token>

    function View(): Shared
      reads this
    {
      Shared(session, node, protocol, selection, manualIP, manualProtocol, phase, lastErr, directMode,
             connectionPaused, connectingIP, cancelConnect, cancelAutomatic, connectAttempt, generation)
    }

    constructor (saved: Option<(Ip, string)>)
      ensures View() == Initial(saved) && nextSid == 0 && closed == [] && canceled == {}
    {
      session, node, protocol := None, "", "";
      selection, manualIP, manualProtocol := Auto, "", "";
      phase, lastErr, directMode, connectionPaused := Idle, None, false, false;
      connectingIP, cancelConnect, cancelAutomatic := "", None, None;
      connectAttempt, generation := 0, 0;
      nextSid, closed, canceled := 0, [], {};
      if saved.Some? {
        selection, manualIP, manualProtocol := Manual, saved.value.0, saved.value.1;
      }
    }

    method SetState(newPhase: Phase, err: Option<string>)
      modifies `phase, `lastErr
      ensures View() == SetPhase(old(View()), newPhase, err)
    {
      phase, lastErr := newPhase, err;
    }

    method Choose(sel: Selection, ip: Ip, forced: string)
      modifies `selection, `manualIP, `manualProtocol
      ensures View() == old(View()).(selection := sel, manualIP := ip, manualProtocol := forced)
    {
      selection, manualIP, manualProtocol := sel, ip, forced;
    }

    /** Every change of the session raises the generation. */
    method Reroute(to: Option<Sid>, direct: bool)
      modifies `session, `directMode, `generation
      ensures View() == old(View()).(session := to, directMode := direct, generation := old(generation) + 1)
    {
      session, directMode := to, direct;
      generation := generation + 1;
    }

    method Occupy(ip: Ip, proto: string)
      modifies `node, `protocol
      ensures View() == old(View()).(node := ip, protocol := proto)
    {
      node, protocol := ip, proto;
    }

    method CancelPending()
      modifies `cancelConnect, `cancelAutomatic, `canceled
      ensures View() == old(View()).(cancelConnect := None, cancelAutomatic := None)
      ensures canceled == old(canceled) + Opt(old(cancelConnect)) + Opt(old(cancelAutomatic))
    {
      if cancelConnect.Some? {
        canceled := canceled + {cancelConnect.value};
        cancelConnect := None;
      }
      if cancelAutomatic.Some? {
        canceled := canceled + {cancelAutomatic.value};
        cancelAutomatic := None;
      }
    }

    /** A newer attempt number silences every candidate that is still on its way. */
    method Supersede(ip: Ip)
      modifies `connectAttempt, `connectingIP
      ensures View() == old(View()).(connectAttempt := old(connectAttempt) + 1, connectingIP := ip)
    {
      connectAttempt := connectAttempt + 1;
      connectingIP := ip;
    }

    method CloseSession(previous: Option<Sid>)
      modifies `closed
      ensures closed == old(closed) + Listed(previous)
    {
      if previous.Some? {
        closed := closed + [previous.value];
      }
    }

    method EnterDirect(paused: bool, newPhase: Phase)
      modifies `session, `directMode, `generation, `connectionPaused, `phase
      ensures View() == old(View()).(session := None, directMode := true, generation := old(generation) + 1,
                                     paused := paused, phase := newPhase)
    {
      Reroute(None, true);
      connectionPaused, phase := paused, newPhase;
    }

    method SilenceCandidates()
      modifies `cancelConnect, `cancelAutomatic, `canceled, `connectAttempt, `connectingIP
      ensures View() == old(View()).(cancelConnect := None, cancelAutomatic := None,
                                     connectAttempt := old(connectAttempt) + 1, connectingIP := "")
      ensures canceled == old(canceled) + Opt(old(cancelConnect)) + Opt(old(cancelAutomatic))
    {
      CancelPending();
      Supersede("");
    }

    /** SetDirectMode(true): leaves the VPN at once, then closes the session it had. */
    method PauseConnections()
      modifies this
      ensures View() == if old(connectionPaused) then old(View()) else Pause(old(View()))
      ensures connectionPaused
      ensures !old(connectionPaused) ==>
                && session.None? && directMode && phase == Direct && generation == old(generation) + 1
                && connectAttempt == old(connectAttempt) + 1 && connectingIP == ""
                && cancelConnect.None? && cancelAutomatic.None? && selection == old(selection)
      ensures closed == if !old(connectionPaused) && old(session).Some?
                        then old(closed) + [old(session).value] else old(closed)
      ensures closed == old(closed) + if old(connectionPaused) then [] else Listed(old(session))
      ensures canceled == old(canceled) +
                (if old(connectionPaused) then {} else Opt(old(cancelConnect)) + Opt(old(cancelAutomatic)))
      ensures nextSid == old(nextSid)
    {
      if connectionPaused {
        return;
      }
      var previous := session;
      EnterDirect(true, Direct);
      lastErr := None;
      SilenceCandidates();
      CloseSession(previous);
    }

    method Announce(cancel: Token)
      modifies `connectionPaused, `cancelConnect, `phase, `lastErr
      ensures View() == old(View()).(paused := false, cancelConnect := Some(cancel),
                                     phase := Connecting, lastErr := None)
    {
      connectionPaused, cancelConnect := false, Some(cancel);
      phase, lastErr := Connecting, None;
    }

    /** The critical section of startCandidate. */
    method BeginAttempt(ip: Ip, cancel: Token) returns (attempt: nat)
      modifies this
      ensures View() == BeginCandidate(old(View()), ip, cancel) && attempt == connectAttempt
      ensures canceled == old(canceled) + Opt(old(cancelConnect)) + Opt(old(cancelAutomatic))
      ensures nextSid == old(nextSid) && closed == old(closed)
    {
      CancelPending();
      Supersede(ip);
      Announce(cancel);
      attempt := connectAttempt;
    }

    method FinishConnectAttempt(attempt: nat, err: Option<string>) returns (current: bool)
      modifies this
      ensures View() == FinishCandidate(old(View()), attempt, err) && current == (old(connectAttempt) == attempt)
      ensures nextSid == old(nextSid) && closed == old(closed) && canceled == old(canceled)
    {
      if connectAttempt != attempt {
        return false;
      }
      connectingIP := "";
      cancelConnect := None;
      if err.Some? {
        phase := if session.Some? then Connected else Failed;
        lastErr := err;
      }
      return true;
    }

    /** install, up to and including the Close of the session it replaces. */
    method InstallSession(sid: Sid, ip: Ip, proto: string, sel: Selection, attempt: nat, forced: string)
      returns (installed: bool)
      modifies this
      ensures installed == MayInstall(old(View()), attempt)
      ensures installed <==> !old(connectionPaused) && (attempt == 0 || attempt == old(connectAttempt))
      ensures installed ==>
                && session == Some(sid) && node == ip && protocol == proto && selection == sel
                && manualIP == (if sel.Manual? then ip else "")
                && manualProtocol == (if sel.Manual? then forced else "")
                && !directMode && phase == Connected && lastErr.None? && generation == old(generation) + 1
      ensures closed == if installed && old(session).Some? then old(closed) + [old(session).value] else old(closed)
      ensures View() == if installed then Install(old(View()), sid, ip, proto, sel, forced) else old(View())
      ensures closed == old(closed) + if installed then Listed(old(session)) else []
      ensures nextSid == old(nextSid) && canceled == old(canceled)
    {
      if connectionPaused || (attempt != 0 && connectAttempt != attempt) {
        return false;
      }
      var previous := session;
      Reroute(Some(sid), false);
      Occupy(ip, proto);
      Choose(sel, if sel == Manual then ip else "", if sel == Manual then forced else "");
      SetState(Connected, None);
      CloseSession(previous);
      return true;
    }

    /** The critical section of failover and the Close that follows it; returns the node to mark as failed. */
    method FailSession(expected: Option<Sid>, fallbackToDirect: bool, cause: string) returns (failed: Option<Ip>)
      modifies this
      ensures failed == if FailoverApplies(old(View()), expected) then Some(old(node)) else None
      ensures failed.Some? <==> !old(connectionPaused) && (expected.None? || old(session) == expected)
      ensures failed.Some? ==>
                && selection.Auto? && manualIP == "" && manualProtocol == "" && lastErr == Some(cause)
                && (if fallbackToDirect then session.None? && directMode && phase == Connecting
                    else session == old(session) && directMode == old(directMode) && phase == old(phase))
      ensures closed == if failed.Some? && fallbackToDirect && old(session).Some?
                        then old(closed) + [old(session).value] else old(closed)
      ensures View() == if failed.Some? then Failover(old(View()), fallbackToDirect, cause) else old(View())
      ensures closed == old(closed) + if failed.Some? && fallbackToDirect then Listed(old(session)) else []
      ensures nextSid == old(nextSid) && canceled == old(canceled)
    {
      if expected.Some? && session != expected {
        return None;
      }
      if connectionPaused {
        return None;
      }
      failed := Some(node);
      var failedSession := None;
      if fallbackToDirect {
        failedSession := session;
        EnterDirect(false, Connecting);
      }
      Choose(Auto, "", "");
      lastErr := Some(cause);
      CloseSession(failedSession);
    }

    /**
     connectNode: the protocol used is the first one in priority order that is offered, has a driver, starts, and, when
     required, passes its probe, unless the context is cancelled first. Every other session it opened is closed.
     */
    method ConnectNode(target: Target, forced: string, requireHealth: bool, world: nat -> Reaction)
      returns (result: Option<(Sid, string)>)
      modifies `nextSid, `closed
      ensures var trials := Trials(target, forced, world);
              && (result.Some? <==> Chosen(trials, requireHealth).Some?)
              && nextSid == old(nextSid) + Opened(trials[..FirstStop(trials, requireHealth)])
                 + (if result.Some? then 1 else 0)
              && (result.Some? ==>
                   && result.value == (nextSid - 1, trials[Chosen(trials, requireHealth).value].protocol)
                   && closed == old(closed) + Range(old(nextSid), nextSid - 1))
              && (result.None? ==> closed == old(closed) + Range(old(nextSid), nextSid))
      ensures nextSid >= old(nextSid)
                && |closed| == |old(closed)| + nextSid - old(nextSid) - (if result.Some? then 1 else 0)
      ensures forall x: Sid :: old(nextSid) <= x < nextSid && (result.None? || x != result.value.0) ==> x in closed
      ensures result.Some? ==>
                && target.ipv4 && result.value.0 == nextSid - 1
                && result.value.1 in target.protocols && result.value.1 in target.drivers
                && (forced != "" ==> result.value.1 == forced)
                && (forced == "" ==> result.value.1 in target.priority)
    {
      hide Chosen, FirstStop, Opened, TrialOf;
      NothingTried(requireHealth);
      var protocols := target.priority;
      if !target.ipv4 {
        protocols := [];
      } else if forced != "" {
        var valid := forced in target.protocols && forced in target.drivers;
        protocols := if valid then [forced] else [];
      }
      result := TryProtocols(protocols, target, requireHealth, world);
      if result.Some? {
        ProtocolIsEligible(target, forced, requireHealth, world);
        RangeCovers(old(nextSid), nextSid - 1);
      } else {
        RangeCovers(old(nextSid), nextSid);
      }
    }

    /** The loop of connectNode. */
    method TryProtocols(protocols: seq<string>, target: Target, requireHealth: bool, world: nat -> Reaction)
      returns (result: Option<(Sid, string)>)
      modifies `nextSid, `closed
      ensures var trials := TrialsOf(protocols, target, world);
              && (result.Some? <==> Chosen(trials, requireHealth).Some?)
              && nextSid == old(nextSid) + Opened(trials[..FirstStop(trials, requireHealth)])
                 + (if result.Some? then 1 else 0)
              && (result.Some? ==>
                   && result.value == (nextSid - 1, trials[Chosen(trials, requireHealth).value].protocol)
                   && closed == old(closed) + Range(old(nextSid), nextSid - 1))
              && (result.None? ==> closed == old(closed) + Range(old(nextSid), nextSid))
    {
      hide Usable, Opens, TrialOf, TrialsOf, FirstStop, Chosen, Opened, Range, InVain;
      ghost var trials, first := TrialsOf(protocols, target, world), nextSid;
      StartsEmpty(trials, requireHealth, first);
      var i := 0;
      while i < |protocols|
        invariant 0 <= i <= |protocols| && InVain(trials, i, requireHealth)
        invariant nextSid == first + Opened(trials[..i])
        invariant closed == old(closed) + Range(first, nextSid)
      {
        var t := TrialOf(protocols[i], target, world(i));
        TrialAt(protocols, target, world, i);
        Turn(trials, i, requireHealth);
        if !t.live {
          return None;
        }
        if t.offered && t.available && t.starts {
          var sid := nextSid;
          nextSid := nextSid + 1;
          if !requireHealth || t.healthy {
            return Some((sid, t.protocol));
          }
          closed := closed + [sid];
          RangeStep(first, sid);
        }
        i := i + 1;
      }
      Over(trials, requireHealth);
      return None;
    }

    /**
     activate, run without interference. An error leaves the route untouched and every session it opened closed; success
     installs the chosen session, and closes the earlier ones and then the one it replaces.
     */
    method Activate(ip: Ip, sel: Selection, requireHealth: bool, attempt: nat, forced: string,
                    target: Target, world: nat -> Reaction, live: bool) returns (ok: bool)
      modifies this
      ensures ok <==>
                Chosen(Trials(target, forced, world), requireHealth).Some? && live && MayInstall(old(View()), attempt)
      ensures nextSid >= old(nextSid) && canceled == old(canceled)
      ensures !ok ==> RouteOf(View()) == RouteOf(old(View())) && closed == old(closed) + Range(old(nextSid), nextSid)
      ensures !ok && requireHealth ==> View() == old(View())
      ensures ok ==>
                && nextSid > old(nextSid)
                && View() == Install(old(View()), nextSid - 1, ip, Protocol(target, forced, requireHealth, world),
                                     sel, forced)
                && closed == old(closed) + Range(old(nextSid), nextSid - 1)
                             + Listed(old(session))
    {
      hide Trials, Chosen, FirstStop, Opened;
      if !requireHealth {
        SetState(Connecting, None);
      }
      var result := ConnectNode(target, forced, requireHealth, world);
      if result.None? {
        if !requireHealth && live {
          SetState(Failed, Some("connect failed"));
        }
        return false;
      }
      var sid := result.value.0;
      assert Range(old(nextSid), nextSid) == Range(old(nextSid), sid) + [sid];
      if !live {
        closed := closed + [sid];
        return false;
      }
      ok := InstallSession(sid, ip, result.value.1, sel, attempt, forced);
      if !ok {
        closed := closed + [sid];
      }
    }

    /** The first sweep of Close. */
    method SweepAndClose() returns (first: Option<Sid>)
      modifies this
      ensures View() == Sweep(old(View())) && first == old(session)
      ensures closed == old(closed) + Listed(first)
      ensures canceled == old(canceled) + Opt(old(cancelConnect)) + Opt(old(cancelAutomatic))
      ensures nextSid == old(nextSid)
    {
      first := session;
      Reroute(None, directMode);
      SilenceCandidates();
      CloseSession(first);
    }
  }

  lemma {:induction false} FirstStopIs(trials: seq<Trial>, requireHealth: bool, i: nat)
    requires i <= |trials|
    requires forall j :: 0 <= j < i ==> trials[j].live && !Usable(trials[j], requireHealth)
    ensures FirstStop(trials, requireHealth) >= i
    ensures i == |trials| || !trials[i].live || Usable(trials[i], requireHealth) ==>
              FirstStop(trials, requireHealth) == i
  {
  }

  /** The trials before i neither end the loop nor give a session that is kept. */
  ghost predicate InVain(trials: seq<Trial>, i: nat, requireHealth: bool)
    requires i <= |trials|
  {
    forall j :: 0 <= j < i ==> trials[j].live && !Usable(trials[j], requireHealth)
  }

  lemma StartsEmpty(trials: seq<Trial>, requireHealth: bool, first: Sid)
    ensures InVain(trials, 0, requireHealth) && Opened(trials[..0]) == 0 && Range(first, first) == []
  {
  }

  lemma TrialAt(list: seq<string>, target: Target, world: nat -> Reaction, i: nat)
    requires i < |list|
    ensures TrialsOf(list, target, world)[i] == TrialOf(list[i], target, world(i))
  {
  }

  /** One turn of the loop: the trial stops it, or it goes on with one more session closed or none. */
  lemma Turn(trials: seq<Trial>, i: nat, requireHealth: bool)
    requires i < |trials| && InVain(trials, i, requireHealth)
    ensures var t := trials[i];
            var opens := t.offered && t.available && t.starts;
            && (!t.live ==> FirstStop(trials, requireHealth) == i && Chosen(trials, requireHealth).None?)
            && (t.live && opens && (requireHealth ==> t.healthy) ==>
                 FirstStop(trials, requireHealth) == i && Chosen(trials, requireHealth) == Some(i))
            && (t.live && !(opens && (requireHealth ==> t.healthy)) ==> InVain(trials, i + 1, requireHealth))
            && Opened(trials[..i + 1]) == Opened(trials[..i]) + (if opens then 1 else 0)
  {
    FirstStopIs(trials, requireHealth, i);
    assert trials[..i + 1][..i] == trials[..i];
  }

  lemma Over(trials: seq<Trial>, requireHealth: bool)
    requires InVain(trials, |trials|, requireHealth)
    ensures FirstStop(trials, requireHealth) == |trials| && Chosen(trials, requireHealth).None?
  {
    FirstStopIs(trials, requireHealth, |trials|);
  }

  lemma RangeStep(first: Sid, sid: Sid)
    requires first <= sid
    ensures Range(first, sid + 1) == Range(first, sid) + [sid]
  {
  }

  lemma NothingTried(requireHealth: bool)
    ensures FirstStop([], requireHealth) == 0 && Chosen([], requireHealth) == None && Opened([]) == 0
  {
  }

  /** The driver of the protocol would give a session that connectNode may return. */
  predicate Works(target: Target, protocol: string, r: Reaction, requireHealth: bool) {
    protocol in target.protocols && protocol in target.drivers && r.starts && (requireHealth ==> r.healthy)
  }

  /** A trial says of its protocol what the node, the drivers and the world say. */
  lemma TrialsWork(list: seq<string>, target: Target, world: nat -> Reaction, requireHealth: bool)
    ensures forall j: nat :: j < |list| ==>
              TrialsOf(list, target, world)[j].live == world(j).live
              && Usable(TrialsOf(list, target, world)[j], requireHealth)
                 == Works(target, list[j], world(j), requireHealth)
  {
  }

  /** The choice is the first usable trial, if no trial up to it finds its context cancelled. */
  lemma ChosenIs(trials: seq<Trial>, requireHealth: bool, k: nat)
    ensures Chosen(trials, requireHealth) == Some(k) <==>
              && k < |trials| && Usable(trials[k], requireHealth)
              && (forall j :: 0 <= j <= k ==> trials[j].live)
              && (forall j :: 0 <= j < k ==> !Usable(trials[j], requireHealth))
  {
    hide Usable;
    if k < |trials| && (forall j :: 0 <= j < k ==> trials[j].live && !Usable(trials[j], requireHealth)) {
      FirstStopIs(trials, requireHealth, k);
    }
  }

  /** The list it works through: nothing for an endpoint that is not IPv4 or an invalid forced protocol. */
  lemma ListIs(target: Target, forced: string)
    ensures var valid := forced in target.protocols && forced in target.drivers;
            Eligible(target, forced) ==
              if !target.ipv4 || (forced != "" && !valid) then []
              else if forced != "" then [forced]
              else target.priority
  {
  }

  lemma NamesAreKept(list: seq<string>, target: Target, world: nat -> Reaction)
    ensures forall j: nat :: j < |list| ==> TrialsOf(list, target, world)[j].protocol == list[j]
  {
    forall j: nat | j < |list| ensures TrialsOf(list, target, world)[j].protocol == list[j] {
      assert TrialsOf(list, target, world)[j] == TrialOf(list[j], target, world(j));
    }
  }

  /**
   The protocol connectNode uses is the first one in priority order that the node offers, that has a driver, that
   starts, and that passes its probe where one is required, with a live context up to it; or the forced one under the
   same conditions.
   */
  lemma ChosenIsFirst(target: Target, forced: string, world: nat -> Reaction, requireHealth: bool, k: nat)
    ensures var list := if forced != "" then [forced] else target.priority;
            var works := (j: nat) requires j < |list| =>
              && list[j] in target.protocols && list[j] in target.drivers
              && world(j).starts && (requireHealth ==> world(j).healthy);
            Chosen(Trials(target, forced, world), requireHealth) == Some(k) <==>
              && target.ipv4 && k < |list| && works(k)
              && (forall j: nat :: j <= k ==> world(j).live)
              && (forall j: nat :: j < k ==> !works(j))
    ensures Chosen(Trials(target, forced, world), requireHealth) == Some(k) ==>
              Protocol(target, forced, requireHealth, world) ==
                if forced != "" then forced else if k < |target.priority| then target.priority[k] else ""
  {
    hide Eligible, Usable, Chosen, FirstStop, TrialsOf, TrialOf;
    ListIs(target, forced);
    TrialsWork(Eligible(target, forced), target, world, requireHealth);
    NamesAreKept(Eligible(target, forced), target, world);
    ChosenIs(Trials(target, forced, world), requireHealth, k);
  }

  lemma RangeCovers(from: Sid, to: Sid)
    requires from <= to
    ensures |Range(from, to)| == to - from
    ensures forall x: Sid :: from <= x < to ==> x in Range(from, to)
  {
    forall x: Sid | from <= x < to ensures x in Range(from, to) {
      assert Range(from, to)[x - from] == x;
    }
  }

  lemma ProtocolIsEligible(target: Target, forced: string, requireHealth: bool, world: nat -> Reaction)
    requires Chosen(Trials(target, forced, world), requireHealth).Some?
    ensures var name := Protocol(target, forced, requireHealth, world);
            && target.ipv4 && name in target.protocols && name in target.drivers
            && (if forced != "" then name == forced else name in target.priority)
  {
    hide Trials, Chosen, Protocol;
    ChosenIsFirst(target, forced, world, requireHealth, Chosen(Trials(target, forced, world), requireHealth).value);
  }
}
