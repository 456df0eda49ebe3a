/** LAN discovery (LANDiscovery), the older generation's fallback for
    finding the host: the server answers discovery requests with its
    transport URI; a client searches only when colocation has not already
    succeeded, and acts on the first response of a search only. */
module Lan {
  import opened Basics
  import opened Net

  /** The answer to a request when there is no manager or no transport. */
  const InvalidUri: string := "INVALID"

  /** isSearching, and whether the base class's discovery is broadcasting. */
  datatype Search = Search(isSearching: bool, discovering: bool)

  datatype LanEvent =
    | StartFallback(colocated: bool)
    | Response(address: string)
    | Stop

  datatype Reaction = Reaction(search: Search, found: Option<string>)

  /** One event: starting is a no-op while searching, otherwise it marks the
      search and broadcasts only when colocation has not succeeded; a
      response while searching is reported and ends the search; stopping
      always ends it. */
  function React(s: Search, e: LanEvent): (r: Reaction)
    ensures r.found.Some? <==> e.Response? && s.isSearching
    ensures r.found.Some? ==> r.found.value == e.address && !r.search.isSearching
    ensures e.StartFallback? && !s.isSearching ==>
      r.search.isSearching && (r.search.discovering <==> s.discovering || !e.colocated)
    ensures e.StartFallback? && s.isSearching ==> r.search == s
    ensures e.Stop? ==> r.search == Search(false, false)
  {
    match e
    case StartFallback(colocated) =>
      if s.isSearching then Reaction(s, None)
      else Reaction(Search(true, s.discovering || !colocated), None)
    case Response(address) =>
      if s.isSearching then Reaction(Search(false, false), Some(address))
      else Reaction(s, None)
    case Stop => Reaction(Search(false, false), None)
  }

  datatype Run = Run(search: Search, found: seq<string>)

  function Replay(s: Search, evs: seq<LanEvent>): Run
    decreases |evs|
  {
    if evs == [] then Run(s, [])
    else
      var r := React(s, evs[0]);
      var rest := Replay(r.search, evs[1..]);
      Run(rest.search, (if r.found.Some? then [r.found.value] else []) + rest.found)
  }

  function Starts(evs: seq<LanEvent>): nat
    decreases |evs|
  {
    if evs == [] then 0 else (if evs[0].StartFallback? then 1 else 0) + Starts(evs[1..])
  }

  /** First response wins: each search reports at most one server, so a
      trace reports no more servers than it starts searches (plus one for a
      search already running), and a search still running at the end has
      not reported yet. */
  lemma {:induction false} OneServerPerSearch(s: Search, evs: seq<LanEvent>)
    ensures var r := Replay(s, evs);
      |r.found| + (if r.search.isSearching then 1 else 0)
        <= Starts(evs) + (if s.isSearching then 1 else 0)
    decreases |evs|
  {
    if evs != [] {
      OneServerPerSearch(React(s, evs[0]).search, evs[1..]);
    }
  }

  /** Discovery broadcasts only when a start found colocation unfinished:
      from a quiet state, a trace whose starts all saw colocation succeed
      never broadcasts. */
  lemma {:induction false} ColocatedStartsStayQuiet(s: Search, evs: seq<LanEvent>)
    requires !s.discovering
    requires forall i :: 0 <= i < |evs| && evs[i].StartFallback? ==> evs[i].colocated
    ensures !Replay(s, evs).search.discovering
    decreases |evs|
  {
    if evs != [] {
      assert forall i :: 0 <= i < |evs[1..]| && evs[1..][i].StartFallback? ==> evs[1..][i].colocated by {
        forall i | 0 <= i < |evs[1..]| && evs[1..][i].StartFallback? ensures evs[1..][i].colocated {
          assert evs[1..][i] == evs[i + 1];
        }
      }
      ColocatedStartsStayQuiet(React(s, evs[0]).search, evs[1..]);
    }
  }

  class LANDiscovery {
    var isSearching: bool
    var discovering: bool
    var advertising: bool
    /** The older generation's colocation flag. */
    const flag: ColocationFlag
    /** Whether a network manager sits beside this component. */
    const hasManager: bool
    /** The manager's transport URI as a string; None without a transport. */
    const transportUri: Option<string>

    constructor (flag: ColocationFlag, hasManager: bool, transportUri: Option<string>)
      ensures !isSearching && !discovering && !advertising
      ensures this.flag == flag && this.hasManager == hasManager && this.transportUri == transportUri
    {
      this.flag := flag;
      this.hasManager := hasManager;
      this.transportUri := transportUri;
      isSearching := false;
      discovering := false;
      advertising := false;
    }

    function State(): Search
      reads this
    {
      Search(isSearching, discovering)
    }

    /** The server's answer to a discovery request: never null, the
        transport URI when there is one and "INVALID" otherwise. */
    function ProcessRequest(): (uri: string)
      ensures hasManager && transportUri.Some? ==> uri == transportUri.value
      ensures !(hasManager && transportUri.Some?) ==> uri == InvalidUri
    {
      if !hasManager || transportUri.None? then InvalidUri else transportUri.value
    }

    /** The URI the colocation manager advertises: "" when the manager or
        the transport is missing. */
    function GetLanServerUri(): (uri: string)
      ensures hasManager && transportUri.Some? ==> uri == transportUri.value
      ensures !(hasManager && transportUri.Some?) ==> uri == ""
    {
      if hasManager && transportUri.Some? then transportUri.value else ""
    }

    method ProcessResponse(address: string) returns (found: Option<string>)
      modifies this`isSearching, this`discovering
      ensures Reaction(State(), found) == React(old(State()), Response(address))
    {
      found := None;
      if isSearching {
        found := Some(address);
        StopDiscovery();
      }
    }

    method StartClientDiscoveryWithFallback()
      modifies this`isSearching, this`discovering
      ensures State() == React(old(State()), StartFallback(flag.successful)).search
    {
      if isSearching {
        return;
      }
      isSearching := true;
      if !flag.successful {
        discovering := true;
      }
    }

    method StartHostAdvertisement()
      modifies this`advertising
      ensures advertising
    {
      advertising := true;
    }

    method StopDiscovery()
      modifies this`isSearching, this`discovering
      ensures State() == React(old(State()), Stop).search
    {
      discovering := false;
      isSearching := false;
    }
  }
}
