/** The older generation's colocation workflow (CustomNetwork's
    ColocationManager). It differs from the current one in four ways: a
    single anchor-share attempt with no retry and no reset, an emptiness
    test instead of a whitespace test on the LAN URI, a fall back to LAN
    discovery when no session has been found after the discovery wait, and
    the colocation flag raised as soon as a session is discovered, before
    its anchor is loaded, with no flag raised by the alignment itself. */
module LegacyColocation {
  import opened Basics
  import opened Net
  import opened Payload
  import opened Anchors
  import Kcp
  import Alignment
  import LegacyAlignment
  import Lan

  class LegacyColocationManager {
    var groupId: Guid
    var advertising: bool
    var discovering: bool
    var subscribed: bool
    /** Whether a successful discovery start is waiting out its delay before
        the LAN fallback check. */
    var fallbackPending: bool
    /** CustomNetwork's ColocationManager.ColocationSuccessful. */
    const flag: ColocationFlag
    const isServer: bool
    const alignmentManager: LegacyAlignment.LegacyAlignmentManager
    const lanDiscovery: Lan.LANDiscovery

    /** LAN discovery reads the same flag. */
    predicate Valid()
      reads this
    {
      lanDiscovery.flag == flag
    }

    constructor (flag: ColocationFlag, isServer: bool, alignmentManager: LegacyAlignment.LegacyAlignmentManager,
                 lanDiscovery: Lan.LANDiscovery)
      requires lanDiscovery.flag == flag
      ensures Valid()
      ensures groupId == EmptyGuid && !advertising && !discovering && !subscribed && !fallbackPending
      ensures this.flag == flag && this.isServer == isServer
      ensures this.alignmentManager == alignmentManager && this.lanDiscovery == lanDiscovery
    {
      this.flag := flag;
      this.isServer := isServer;
      this.alignmentManager := alignmentManager;
      this.lanDiscovery := lanDiscovery;
      groupId := EmptyGuid;
      advertising := false;
      discovering := false;
      subscribed := false;
      fallbackPending := false;
    }

    // -------------------------------------------------------------------
    // Host
    // -------------------------------------------------------------------

    /** Advertising runs on the server only. */
    method StartColocationSession(uri: string, start: Option<Guid>, attempt: Option<Attempt>)
      returns (payload: Option<string>, shared: bool)
      modifies this`groupId, this`advertising
      ensures !isServer ==>
        payload.None? && !shared && groupId == old(groupId) && advertising == old(advertising)
      ensures isServer ==>
        var proceeds := !IsNullOrEmpty(uri) && Kcp.HostOf(uri).Some? && start.Some?;
        (payload.Some? <==> proceeds)
        && (proceeds ==> payload.value == Encode(Kcp.HostOf(uri).value) && groupId == start.value && advertising)
        && (!proceeds ==> groupId == old(groupId) && advertising == old(advertising))
        && (shared <==> proceeds && attempt.Some? && Succeeds(attempt.value))
    {
      payload, shared := None, false;
      if isServer {
        payload, shared := AdvertiseColocationSession(uri, start, attempt);
      }
    }

    /** Advertise the session. `uri` is LAN discovery's GetLanServerUri;
        `start` the platform's answer to starting the advertisement;
        `attempt` the outcome of the single share attempt, None when creating
        the anchor threw. An empty URI, a URI without a host or a failed
        start ends the flow; a URI of blanks is not caught by the emptiness
        test and fails in the URI parse instead. */
    method AdvertiseColocationSession(uri: string, start: Option<Guid>, attempt: Option<Attempt>)
      returns (payload: Option<string>, shared: bool)
      modifies this`groupId, this`advertising
      ensures var proceeds := !IsNullOrEmpty(uri) && Kcp.HostOf(uri).Some? && start.Some?;
        (payload.Some? <==> proceeds)
        && (proceeds ==> payload.value == Encode(Kcp.HostOf(uri).value) && groupId == start.value && advertising)
        && (!proceeds ==> groupId == old(groupId) && advertising == old(advertising))
        && (shared <==> proceeds && attempt.Some? && Succeeds(attempt.value))
    {
      payload, shared := None, false;
      if IsNullOrEmpty(uri) {
        return;
      }
      var host := Kcp.HostOf(uri);
      if host.None? {
        return;
      }
      var message := Encode(host.value);
      if start.None? {
        return;
      }
      groupId := start.value;
      advertising := true;
      payload := Some(message);
      shared := CreateAndShareAlignmentAnchor(attempt);
    }

    /** One attempt, no retry: the anchor is shared only if it was created,
        localised, saved and shared. A failed creation is logged without
        returning, and the next line's use of the missing anchor throws into
        the method's own catch, so nothing is shared either way. */
    method CreateAndShareAlignmentAnchor(attempt: Option<Attempt>) returns (shared: bool)
      ensures shared <==> attempt.Some? && Succeeds(attempt.value)
    {
      if attempt.None? {
        return false;
      }
      var a := attempt.value;
      if !a.localized {
        return false;
      }
      if !a.saved {
        return false;
      }
      if !a.shared {
        return false;
      }
      shared := true;
    }

    method StopColocationAdvertisement()
      modifies this`advertising
      ensures !advertising
    {
      advertising := false;
    }

    // -------------------------------------------------------------------
    // Client
    // -------------------------------------------------------------------

    /** OnStartClient: discover nearby sessions. */
    method OnStartClient(started: bool)
      modifies this`subscribed, this`discovering, this`fallbackPending
      ensures subscribed && discovering == started && fallbackPending == started
    {
      DiscoverNearbySession(started);
    }

    /** Subscribe and start discovery (`started` is the platform's answer).
        A failed start returns at once; a successful one goes on to wait
        before checking whether LAN discovery is needed. */
    method DiscoverNearbySession(started: bool)
      modifies this`subscribed, this`discovering, this`fallbackPending
      ensures subscribed && discovering == started && fallbackPending == started
    {
      subscribed := true;
      discovering := started;
      fallbackPending := false;
      if !started {
        return;
      }
      fallbackPending := true;
    }

    /** The rest of DiscoverNearbySession after its wait: LAN discovery
        starts only if no session has set the group id in the meantime. */
    method DiscoveryFallback() returns (fellBack: bool)
      requires Valid()
      modifies this`fallbackPending, lanDiscovery`isSearching, lanDiscovery`discovering
      ensures !fallbackPending
      ensures fellBack <==> old(fallbackPending) && groupId == EmptyGuid
      ensures fellBack ==>
        lanDiscovery.State() == Lan.React(old(lanDiscovery.State()), Lan.StartFallback(flag.successful)).search
      ensures !fellBack ==> lanDiscovery.State() == old(lanDiscovery.State())
    {
      fellBack := fallbackPending && groupId == EmptyGuid;
      fallbackPending := false;
      if fellBack {
        lanDiscovery.StartClientDiscoveryWithFallback();
      }
    }

    /** A discovered session: unsubscribe, drop metadata that does not split
        into two parts, otherwise adopt the group id and raise the flag at
        once; the result names the group whose anchors are loaded next and
        the address the network manager is asked to connect to. */
    method OnColocationSessionDiscovered(metadata: string, advertisementUuid: Guid)
      returns (discovered: Option<Discovered>)
      modifies this`subscribed, this`groupId, flag
      ensures !subscribed
      ensures discovered.None? <==> Parse(metadata).None?
      ensures discovered.None? ==> groupId == old(groupId) && flag.successful == old(flag.successful)
      ensures discovered.Some? ==>
        groupId == advertisementUuid && flag.successful
        && discovered.value == Discovered(advertisementUuid, Parse(metadata).value)
    {
      subscribed := false;
      var splitData := Split(metadata, Separator);
      if |splitData| < 2 {
        return None;
      }
      groupId := advertisementUuid;
      var lanServerAddress := splitData[1];
      flag.Raise();
      discovered := Some(Discovered(groupId, lanServerAddress));
    }

    method StopColocationDiscovery()
      modifies this`discovering, this`subscribed
      ensures !discovering && !subscribed
    {
      subscribed := false;
      discovering := false;
    }

    /** RequestAnchorSync and LoadAndAlignToAnchor: align to the first
        loaded anchor that localises; nothing happens after a failed or
        empty load. The flag is not touched. */
    method LoadAndAlignToAnchor(loaded: Option<seq<Candidate>>) returns (alignedTo: Option<nat>)
      modifies alignmentManager`rig
      ensures alignedTo == (if loaded.None? then None else FirstIndex(loaded.value, Localizes))
      ensures alignedTo.Some? ==>
        alignmentManager.rig == Alignment.AlignedRig(loaded.value[alignedTo.value].secondPass)
      ensures alignedTo.None? ==> alignmentManager.rig == old(alignmentManager.rig)
    {
      if loaded.None? || |loaded.value| == 0 {
        return None;
      }
      var unboundAnchors := loaded.value;
      var i := 0;
      while i < |unboundAnchors|
        invariant 0 <= i <= |unboundAnchors|
        invariant forall j :: 0 <= j < i ==> !Localizes(unboundAnchors[j])
      {
        var ub := unboundAnchors[i];
        if ub.localizes {
          var anchor := Alignment.SpatialAnchor(true, ub.firstPass);
          var started := alignmentManager.AlignUserToAnchor(Some(anchor), [ub.firstPass, ub.secondPass]);
          assert FirstIndex(unboundAnchors, Localizes) == Some(i);
          return Some(i);
        }
        i := i + 1;
      }
      alignedTo := None;
    }
  }
}
