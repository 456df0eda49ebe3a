/** The "panic reset" (FullSceneResetManager): stop the colocation
    workflows, shut Mirror down in the way the current network state calls
    for, wait a grace period for the sockets to close, clear the colocation
    flag and reload the scene. A reset starts at most once per scene. */
module Reset {
  import opened Net

  /** The inspector default of shutdownGraceSeconds. */
  const DefaultShutdownGrace: real := 0.5

  datatype Shutdown = StopHost | StopServer | StopClient | NoShutdown

  /** Mirror's activity flags, as the shutdown choice reads them. */
  datatype Sockets = Sockets(serverActive: bool, clientActive: bool, clientConnected: bool)

  /** Host when a server runs with a connected local client, server alone
      when no client is connected, client when only a client is started or
      connected, nothing otherwise. */
  function ChooseShutdown(s: Sockets): (k: Shutdown)
    ensures k == StopHost <==> s.serverActive && s.clientConnected
    ensures k == StopServer <==> s.serverActive && !s.clientConnected
    ensures k == StopClient <==> !s.serverActive && (s.clientConnected || s.clientActive)
    ensures k == NoShutdown <==> !s.serverActive && !s.clientConnected && !s.clientActive
  {
    if s.serverActive && s.clientConnected then StopHost
    else if s.serverActive then StopServer
    else if s.clientConnected || s.clientActive then StopClient
    else NoShutdown
  }

  /** What each kind of shutdown switches off. */
  function AfterShutdown(s: Sockets, k: Shutdown): Sockets {
    match k
    case StopHost => Sockets(false, false, false)
    case StopServer => s.(serverActive := false)
    case StopClient => s.(clientActive := false, clientConnected := false)
    case NoShutdown => s
  }

  /** After the chosen shutdown no server runs and no client is connected;
      a client is left started only when a server ran beside a client that
      had not connected yet (the server-only branch does not stop it). */
  lemma ShutdownLeavesNothingConnected(s: Sockets)
    requires s.clientConnected ==> s.clientActive
    ensures var r := AfterShutdown(s, ChooseShutdown(s));
      !r.serverActive && !r.clientConnected &&
      (r.clientActive <==> s.serverActive && s.clientActive && !s.clientConnected)
  {
  }

  datatype Step = StopDiscovery | StopAdvertisement | Shut(kind: Shutdown) | ClearFlag | ReloadScene

  /** The steps of one reset: the colocation workflows are stopped when a
      colocation manager is found, the shutdown always happens, and the flag
      is cleared and the scene reloaded once the grace period has passed. */
  function Plan(hasColocationManager: bool, kind: Shutdown, graceElapsed: bool): seq<Step> {
    (if hasColocationManager then [StopDiscovery, StopAdvertisement] else [])
    + [Shut(kind)]
    + (if graceElapsed then [ClearFlag, ReloadScene] else [])
  }

  /** Where a step belongs in a reset. */
  function Rank(s: Step): nat {
    match s
    case StopDiscovery => 0
    case StopAdvertisement => 1
    case Shut(_) => 2
    case ClearFlag => 3
    case ReloadScene => 4
  }

  /** A reset runs its steps in order, each at most once: colocation is
      stopped before the network, the network before the flag is cleared,
      and the reload comes last, exactly when the grace period elapsed. */
  lemma {:induction false} PlanIsOrdered(hasColocationManager: bool, kind: Shutdown, graceElapsed: bool)
    ensures var p := Plan(hasColocationManager, kind, graceElapsed);
      (forall i, j :: 0 <= i < j < |p| ==> Rank(p[i]) < Rank(p[j]))
      && (ReloadScene in p <==> graceElapsed)
      && (ClearFlag in p <==> graceElapsed)
      && (graceElapsed ==> p[|p| - 1] == ReloadScene)
      && Shut(kind) in p
  {
    var head: seq<Step> := if hasColocationManager then [StopDiscovery, StopAdvertisement] else [];
    var tail: seq<Step> := if graceElapsed then [ClearFlag, ReloadScene] else [];
    var p := Plan(hasColocationManager, kind, graceElapsed);
    assert p == head + [Shut(kind)] + tail;
    assert forall i :: 0 <= i < |head| ==> p[i] == head[i] && Rank(p[i]) == i;
    assert p[|head|] == Shut(kind);
    assert forall i :: |head| < i < |p| ==> p[i] == tail[i - |head| - 1] && Rank(p[i]) == i - |head| + 2;
    assert ReloadScene !in head && ClearFlag !in head;
  }

  /** Time covered by a sequence of frames. */
  function Sum(ds: seq<real>): real
    decreases |ds|
  {
    if ds == [] then 0.0 else Sum(ds[..|ds| - 1]) + ds[|ds| - 1]
  }

  class FullSceneResetManager {
    var isResetting: bool
    const shutdownGraceSeconds: real

    constructor (shutdownGraceSeconds: real)
      ensures !isResetting && this.shutdownGraceSeconds == shutdownGraceSeconds
    {
      this.shutdownGraceSeconds := shutdownGraceSeconds;
      isResetting := false;
    }

    /** Start the reset coroutine unless one is running; its first statement
        raises the resetting flag before control comes back. */
    method TriggerFullReset() returns (started: bool)
      modifies this`isResetting
      ensures started <==> !old(isResetting)
      ensures isResetting
    {
      started := !isResetting;
      if started {
        isResetting := true;
      }
    }

    /** `n` presses of the reset trigger in one scene: the resetting flag
        is never cleared, so at most one of them starts a reset, and none
        does when a reset is already running. */
    method TriggerRepeatedly(n: nat) returns (starts: nat)
      modifies this`isResetting
      ensures starts <= 1
      ensures starts == 1 <==> n > 0 && !old(isResetting)
      ensures isResetting == (old(isResetting) || n > 0)
    {
      starts := 0;
      var i := 0;
      while i < n
        invariant 0 <= i <= n
        invariant isResetting == (old(isResetting) || i > 0)
        invariant starts == (if old(isResetting) || i == 0 then 0 else 1)
      {
        var started := TriggerFullReset();
        if started {
          starts := starts + 1;
        }
        i := i + 1;
      }
    }

    /** The body of the reset coroutine. `frameDeltas` are the unscaled frame
        times of the frames that follow the shutdown; the coroutine waits
        until they add up to the grace period, and if they never do within
        the frames given it is still waiting at the end. */
    method ResetAndReload(hasColocationManager: bool, frameDeltas: seq<real>, net: NetworkState, flag: ColocationFlag)
      returns (steps: seq<Step>, frames: nat)
      modifies this`isResetting, net`serverActive, net`clientActive, net`clientConnected, flag
      ensures isResetting
      ensures frames <= |frameDeltas|
      ensures var before := old(Sockets(net.serverActive, net.clientActive, net.clientConnected));
        Sockets(net.serverActive, net.clientActive, net.clientConnected)
          == AfterShutdown(before, ChooseShutdown(before))
        && steps == Plan(hasColocationManager, ChooseShutdown(before),
                         Sum(frameDeltas[..frames]) >= shutdownGraceSeconds)
      ensures Sum(frameDeltas[..frames]) >= shutdownGraceSeconds || frames == |frameDeltas|
      ensures forall n :: 0 <= n < frames ==> Sum(frameDeltas[..n]) < shutdownGraceSeconds
      ensures Sum(frameDeltas[..frames]) >= shutdownGraceSeconds ==> !flag.successful
      ensures Sum(frameDeltas[..frames]) < shutdownGraceSeconds ==> flag.successful == old(flag.successful)
    {
      isResetting := true;
      steps := [];
      if hasColocationManager {
        steps := steps + [StopDiscovery, StopAdvertisement];
      }

      var kind := ChooseShutdown(Sockets(net.serverActive, net.clientActive, net.clientConnected));
      match kind {
        case StopHost => net.StopHost();
        case StopServer => net.StopServer();
        case StopClient => net.StopClient();
        case NoShutdown =>
      }
      steps := steps + [Shut(kind)];

      var t := 0.0;
      frames := 0;
      while t < shutdownGraceSeconds && frames < |frameDeltas|
        decreases |frameDeltas| - frames
        invariant 0 <= frames <= |frameDeltas|
        invariant t == Sum(frameDeltas[..frames])
        invariant forall n :: 0 <= n < frames ==> Sum(frameDeltas[..n]) < shutdownGraceSeconds
      {
        assert frameDeltas[..frames + 1][..frames] == frameDeltas[..frames];
        t := t + frameDeltas[frames];
        frames := frames + 1;
      }
      if t < shutdownGraceSeconds {
        return;
      }

      flag.Clear();
      steps := steps + [ClearFlag, ReloadScene];
    }
  }
}
