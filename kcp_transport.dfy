/** The server URI the KCP transport reports (CustomKcpTransport.ServerUri):
    the first of the host's addresses that is IPv4 and neither loopback
    (127.0.0.0/8) nor link-local (169.254.0.0/16), both special-purpose
    blocks of RFC 6890 section 2.2.2, with 127.0.0.1 as the fallback, put
    into a "kcp" URI with the configured port. The host's address list comes
    from DNS and is a parameter here. This module also holds the part of
    .NET's Uri that the session code uses: printing a URI and reading its
    host back. */
module Kcp {
  import opened Basics

  newtype byte = x: int | 0 <= x < 256

  newtype ushort = x: int | 0 <= x < 65536

  /** An address as DNS returns it. IPv6 addresses are never looked into
      beyond the loopback test; `bits` is the 128-bit value. */
  datatype IPAddress = IPv4(a: byte, b: byte, c: byte, d: byte) | IPv6(bits: nat)

  /** IPAddress.Loopback. */
  const Loopback: IPAddress := IPv4(127, 0, 0, 1)

  /** IPAddress.IsLoopback: 127.x.x.x, or ::1. */
  predicate IsLoopback(ip: IPAddress) {
    match ip
    case IPv4(a, _, _, _) => a == 127
    case IPv6(bits) => bits == 1
  }

  /** IsAPIPA: the first two address bytes are 169 and 254 (the link-local
      block 169.254.0.0/16), which never overlaps the loopback block. */
  predicate IsAPIPA(ip: IPAddress)
    requires ip.IPv4?
    ensures IsAPIPA(ip) ==> !IsLoopback(ip)
    ensures ip.a != 169 || ip.b != 254 ==> !IsAPIPA(ip)
  {
    ip.a == 169 && ip.b == 254
  }

  /** The filter of ServerUri, evaluated left to right as C#'s && does. */
  predicate Qualifies(ip: IPAddress) {
    ip.IPv4? && !IsLoopback(ip) && !IsAPIPA(ip)
  }

  /** The address the server advertises. */
  function ChosenAddress(addrs: seq<IPAddress>): (ip: IPAddress)
    ensures ip.IPv4?
  {
    match FirstIndex(addrs, Qualifies)
    case None => Loopback
    case Some(i) => addrs[i]
  }

  /** The choice: the first qualifying address when there is one, and the
      loopback fallback exactly when there is none; a result other than the
      fallback is never loopback or link-local. */
  lemma ChosenAddressIsFirstUsable(addrs: seq<IPAddress>)
    ensures ChosenAddress(addrs) == Loopback <==> forall j :: 0 <= j < |addrs| ==> !Qualifies(addrs[j])
    ensures ChosenAddress(addrs) != Loopback ==>
      Qualifies(ChosenAddress(addrs))
      && exists i :: 0 <= i < |addrs| && addrs[i] == ChosenAddress(addrs)
                     && forall j :: 0 <= j < i ==> !Qualifies(addrs[j])
  {
    match FirstIndex(addrs, Qualifies)
    case None =>
    case Some(i) =>
      assert !IsLoopback(addrs[i]);
  }

  // ---------------------------------------------------------------------
  // Printing and reading URIs
  // ---------------------------------------------------------------------

  predicate IsDigit(c: char) { '0' <= c <= '9' }

  function Digit(n: nat): (c: char)
    requires n < 10
    ensures IsDigit(c)
  {
    ['0', '1', '2', '3', '4', '5', '6', '7', '8', '9'][n]
  }

  /** A number in decimal, without leading zeros. */
  function Decimal(n: nat): (s: string)
    ensures |s| >= 1
    ensures forall i :: 0 <= i < |s| ==> IsDigit(s[i])
    decreases n
  {
    if n < 10 then [Digit(n)] else Decimal(n / 10) + [Digit(n % 10)]
  }

  /** IPAddress.ToString for IPv4: dotted decimal. */
  function HostString(ip: IPAddress): (s: string)
    requires ip.IPv4?
    ensures |s| >= 7
    ensures forall i :: 0 <= i < |s| ==> s[i] == '.' || IsDigit(s[i])
  {
    var s := Decimal(ip.a as nat) + "." + Decimal(ip.b as nat) + "." + Decimal(ip.c as nat) + "." + Decimal(ip.d as nat);
    assert forall i :: 0 <= i < |s| ==> s[i] == '.' || IsDigit(s[i]);
    s
  }

  datatype Uri = Uri(scheme: string, host: string, port: ushort)

  /** Uri.ToString of a scheme, host and port: "scheme://host:port/". */
  function UriString(u: Uri): string {
    u.scheme + "://" + u.host + ":" + Decimal(u.port as nat) + "/"
  }

  /** ServerUri. */
  function ServerUri(addrs: seq<IPAddress>, port: ushort): (u: Uri)
    ensures u.scheme == "kcp" && u.port == port
  {
    Uri("kcp", HostString(ChosenAddress(addrs)), port)
  }

  /** The longest prefix holding none of `stops`. */
  function TakeUntil(s: string, stops: set<char>): (r: string)
    ensures |r| <= |s| && r == s[..|r|]
    ensures forall i :: 0 <= i < |r| ==> r[i] !in stops
    decreases |s|
  {
    if s == [] || s[0] in stops then "" else [s[0]] + TakeUntil(s[1..], stops)
  }

  /** The position of the first `c` in `s`. */
  function IndexOf(s: string, c: char): (r: Option<nat>)
    ensures r.Some? ==> r.value < |s| && s[r.value] == c && c !in s[..r.value]
    ensures r.None? ==> c !in s
    decreases |s|
  {
    if s == [] then None
    else if s[0] == c then Some(0)
    else match IndexOf(s[1..], c)
      case None => None
      case Some(i) =>
        assert s[..i + 1] == [s[0]] + s[1..][..i];
        Some(i + 1)
  }

  /** new Uri(s).Host for strings of the form scheme://host[:port][/path]:
      the text after "://" up to the next ':' or '/'; None where .NET would
      throw (no "://" after the scheme, or an empty host). */
  function HostOf(s: string): (r: Option<string>)
    ensures r.Some? ==> r.value != "" && ':' !in r.value && '/' !in r.value
    ensures IndexOf(s, ':').None? ==> r.None?
  {
    match IndexOf(s, ':')
    case None => None
    case Some(i) =>
      if i + 3 <= |s| && s[i..i + 3] == "://" then
        var host := TakeUntil(s[i + 3..], {':', '/'});
        if host == "" then None else Some(host)
      else None
  }

  lemma {:induction false} IndexOfAfterPrefix(x: string, y: string, c: char)
    requires c !in x && y != [] && y[0] == c
    ensures IndexOf(x + y, c) == Some(|x|)
    decreases |x|
  {
    if x == [] {
      assert (x + y)[0] == c;
    } else {
      assert (x + y)[1..] == x[1..] + y;
      IndexOfAfterPrefix(x[1..], y, c);
    }
  }

  lemma {:induction false} TakeUntilPrefix(x: string, y: string, stops: set<char>)
    requires forall i :: 0 <= i < |x| ==> x[i] !in stops
    requires y != [] && y[0] in stops
    ensures TakeUntil(x + y, stops) == x
    decreases |x|
  {
    if x == [] {
      assert (x + y)[0] == y[0];
    } else {
      assert (x + y)[1..] == x[1..] + y;
      TakeUntilPrefix(x[1..], y, stops);
      assert x == [x[0]] + x[1..];
    }
  }

  /** Reading the host back from a printed URI gives the host it was built
      with, as long as neither scheme nor host holds a ':' and the host holds
      no '/'. */
  lemma HostOfUriString(u: Uri)
    requires ':' !in u.scheme && ':' !in u.host && '/' !in u.host && u.host != ""
    ensures HostOf(UriString(u)) == Some(u.host)
  {
    var s := UriString(u);
    var tail := ":" + Decimal(u.port as nat) + "/";
    var rest := "//" + u.host + tail;
    assert s == u.scheme + (":" + rest);
    IndexOfAfterPrefix(u.scheme, ":" + rest, ':');
    var front := u.scheme + "://";
    assert s == front + (u.host + tail);
    assert s[|front|..] == u.host + tail;
    var i := |u.scheme|;
    assert s[i..i + 3] == front[i..];
    TakeUntilPrefix(u.host, tail, {':', '/'});
  }

  /** The server's URI string names the chosen address as its host. */
  lemma ServerUriHost(addrs: seq<IPAddress>, port: ushort)
    ensures HostOf(UriString(ServerUri(addrs, port))) == Some(HostString(ChosenAddress(addrs)))
  {
    var h := HostString(ChosenAddress(addrs));
    assert ':' !in h && '/' !in h by {
      forall i | 0 <= i < |h| ensures h[i] != ':' && h[i] != '/' {
        assert h[i] == '.' || IsDigit(h[i]);
      }
    }
    assert ':' !in "kcp";
    HostOfUriString(ServerUri(addrs, port));
  }
}
