/** The colocation workflow of the current generation (ColocationManager,
    "anchor first, network second").

    Host: read the LAN URI, advertise "SharedSpatialAnchorSession|<ip>" as
    session metadata, then create, save and share an alignment anchor at the
    origin, retrying up to ten times and escalating to a full scene reset
    when every attempt fails.

    Client: subscribe to session discovery; a discovered session names the
    anchor group and the server address; the group's anchors are loaded and
    the user is aligned to the first one that localises, which raises the
    colocation flag the network manager waits for.

    The platform's asynchronous answers are parameters; each async method is
    modelled from its start to its end as seen by this component. */
module Colocation {
  import opened Basics
  import opened Net
  import opened Payload
  import opened Anchors
  import Kcp
  import Alignment
  import Reset

  /** maxAttempts of the share loop. */
  const MaxAttempts: nat := 10

  class ColocationManager {
    var groupId: Guid
    /** Whether the platform is advertising this host's session. */
    var advertising: bool
    /** Whether the platform is discovering sessions for this client. */
    var discovering: bool
    /** Whether OnColocationSessionDiscovered is subscribed to discovery. */
    var subscribed: bool
    /** ColocationManager.ColocationSuccessful. */
    const flag: ColocationFlag
    const alignmentManager: Alignment.AlignmentManager
    const fullSceneResetManager: Reset.FullSceneResetManager

    constructor (flag: ColocationFlag, alignmentManager: Alignment.AlignmentManager,
                 fullSceneResetManager: Reset.FullSceneResetManager)
      ensures groupId == EmptyGuid && !advertising && !discovering && !subscribed
      ensures this.flag == flag && this.alignmentManager == alignmentManager
      ensures this.fullSceneResetManager == fullSceneResetManager
    {
      this.flag := flag;
      this.alignmentManager := alignmentManager;
      this.fullSceneResetManager := fullSceneResetManager;
      groupId := EmptyGuid;
      advertising := false;
      discovering := false;
      subscribed := false;
    }

    // -------------------------------------------------------------------
    // Host
    // -------------------------------------------------------------------

    /** Advertise the session. `uri` is what the network manager's
        GetLanServerUri returned; `start` is the platform's answer to
        starting the advertisement (the new group id, or None on failure);
        `attempts` are its answers to the ten anchor-share attempts.
        A blank URI, a URI without a host (the parse exception is caught)
        or a failed start ends the flow before any anchor is created. */
    method AdvertiseColocationSession(uri: string, start: Option<Guid>, attempts: seq<Attempt>)
      returns (payload: Option<string>, sharedOn: Option<nat>, resetStarted: bool)
      requires |attempts| == MaxAttempts
      modifies this`groupId, this`advertising, fullSceneResetManager`isResetting
      ensures var proceeds := !IsNullOrWhiteSpace(uri) && Kcp.HostOf(uri).Some? && start.Some?;
        (payload.Some? <==> proceeds)
        && (proceeds ==> payload.value == Encode(Kcp.HostOf(uri).value)
                         && groupId == start.value && advertising
                         && sharedOn == FirstIndex(attempts, Succeeds)
                         && (sharedOn.Some? ==>
                               !resetStarted
                               && fullSceneResetManager.isResetting == old(fullSceneResetManager.isResetting))
                         && (sharedOn.None? ==>
                               fullSceneResetManager.isResetting
                               && (resetStarted <==> !old(fullSceneResetManager.isResetting))))
        && (!proceeds ==> groupId == old(groupId) && advertising == old(advertising)
                          && sharedOn.None? && !resetStarted
                          && fullSceneResetManager.isResetting == old(fullSceneResetManager.isResetting))
      ensures resetStarted ==> payload.Some? && sharedOn.None?
    {
      payload, sharedOn, resetStarted := None, None, false;
      if IsNullOrWhiteSpace(uri) {
        return;
      }
      var host := Kcp.HostOf(uri);
      if host.None? {
        return;
      }
      var message := Encode(host.value);
      if start.None? {
        return;
      }
      groupId := start.value;
      advertising := true;
      payload := Some(message);
      sharedOn, resetStarted := CreateAndShareAlignmentAnchor(attempts);
    }

    /** The share loop: up to ten attempts, each abandoned at the first
        stage that fails; the first attempt that shares ends the loop, and
        when all ten fail a full reset is requested. Returns the attempt that
        shared, and whether the reset request started a reset. */
    method CreateAndShareAlignmentAnchor(attempts: seq<Attempt>) returns (sharedOn: Option<nat>, resetStarted: bool)
      requires |attempts| == MaxAttempts
      modifies fullSceneResetManager`isResetting
      ensures sharedOn == FirstIndex(attempts, Succeeds)
      ensures sharedOn.Some? ==>
        !resetStarted && fullSceneResetManager.isResetting == old(fullSceneResetManager.isResetting)
      ensures sharedOn.None? ==>
        fullSceneResetManager.isResetting && (resetStarted <==> !old(fullSceneResetManager.isResetting))
    {
      var attempt := 0;
      while attempt < MaxAttempts
        invariant 0 <= attempt <= MaxAttempts
        invariant forall j :: 0 <= j < attempt ==> !Succeeds(attempts[j])
      {
        var a := attempts[attempt];
        if !a.localized {
          attempt := attempt + 1;
          continue;
        }
        if !a.saved {
          attempt := attempt + 1;
          continue;
        }
        if a.shared {
          assert FirstIndex(attempts, Succeeds) == Some(attempt);
          return Some(attempt), false;
        }
        attempt := attempt + 1;
      }
      sharedOn := None;
      resetStarted := fullSceneResetManager.TriggerFullReset();
    }

    method StopColocationAdvertisement()
      modifies this`advertising
      ensures !advertising
    {
      advertising := false;
    }

    // -------------------------------------------------------------------
    // Client
    // -------------------------------------------------------------------

    /** Subscribe to discovered sessions and start discovery; `started` is
        the platform's answer (a failure is only logged). */
    method DiscoverNearbySession(started: bool)
      modifies this`subscribed, this`discovering
      ensures subscribed && discovering == started
    {
      subscribed := true;
      discovering := started;
    }

    /** A discovered session. The handler unsubscribes itself first; metadata
        that does not split into two parts is dropped. Otherwise the group id
        is adopted, and the result names the group whose anchors are loaded
        next and the address the network manager is asked to connect to. */
    method OnColocationSessionDiscovered(metadata: string, advertisementUuid: Guid)
      returns (discovered: Option<Discovered>)
      modifies this`subscribed, this`groupId
      ensures !subscribed
      ensures discovered.None? <==> Parse(metadata).None?
      ensures discovered.None? ==> groupId == old(groupId)
      ensures discovered.Some? ==>
        groupId == advertisementUuid
        && discovered.value == Discovered(advertisementUuid, Parse(metadata).value)
    {
      subscribed := false;
      var splitData := Split(metadata, Separator);
      if |splitData| < 2 {
        return None;
      }
      groupId := advertisementUuid;
      var serverAddress := splitData[1];
      discovered := Some(Discovered(groupId, serverAddress));
    }

    /** Load the group's anchors (`loaded` is the platform's answer: None
        when loading failed) and align to the first one that localises, then
        raise the colocation flag. A failed or empty load, or no anchor
        localising, leaves the rig and the flag as they were. */
    method LoadAndAlignToAnchor(loaded: Option<seq<Candidate>>) returns (alignedTo: Option<nat>)
      modifies alignmentManager`rig, flag
      ensures alignedTo == (if loaded.None? then None else FirstIndex(loaded.value, Localizes))
      ensures alignedTo.Some? ==>
        flag.successful
        && alignmentManager.rig == Alignment.AlignedRig(loaded.value[alignedTo.value].secondPass)
      ensures alignedTo.None? ==>
        flag.successful == old(flag.successful) && alignmentManager.rig == old(alignmentManager.rig)
    {
      if loaded.None? || |loaded.value| == 0 {
        return None;
      }
      var unbound := loaded.value;
      var i := 0;
      while i < |unbound|
        invariant 0 <= i <= |unbound|
        invariant forall j :: 0 <= j < i ==> !Localizes(unbound[j])
      {
        var ub := unbound[i];
        if ub.localizes {
          var anchor := Alignment.SpatialAnchor(true, ub.firstPass);
          var started := alignmentManager.AlignUserToAnchor(Some(anchor), [ub.firstPass, ub.secondPass]);
          flag.Raise();
          assert FirstIndex(unbound, Localizes) == Some(i);
          return Some(i);
        }
        i := i + 1;
      }
      alignedTo := None;
    }

    /** Stop discovery, then unsubscribe the handler. */
    method StopColocationDiscovery()
      modifies this`discovering, this`subscribed
      ensures !discovering && !subscribed
    {
      discovering := false;
      subscribed := false;
    }
  }

  /** End to end: whatever addresses the host has, the URI its transport
      reports is not blank, has a host, and the session metadata built from
      it hands a client exactly the address the transport chose. */
  lemma AdvertisedAddressIsDiscovered(addrs: seq<Kcp.IPAddress>, port: Kcp.ushort)
    ensures var uri := Kcp.UriString(Kcp.ServerUri(addrs, port));
      !IsNullOrWhiteSpace(uri) && Kcp.HostOf(uri).Some?
      && Parse(Encode(Kcp.HostOf(uri).value)) == Some(Kcp.HostString(Kcp.ChosenAddress(addrs)))
  {
    var uri := Kcp.UriString(Kcp.ServerUri(addrs, port));
    assert uri[0] == 'k' && !IsWhiteSpace(uri[0]);
    Kcp.ServerUriHost(addrs, port);
    var h := Kcp.HostString(Kcp.ChosenAddress(addrs));
    assert Separator !in h by {
      forall i | 0 <= i < |h| ensures h[i] != Separator {
        assert h[i] == '.' || Kcp.IsDigit(h[i]);
      }
    }
    ParseEncode(h);
  }
}
