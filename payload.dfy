/** The colocation advertisement payload and the string helpers that read
    it. The host puts `"SharedSpatialAnchorSession|<ip>"` into the session's
    metadata; a client splits the metadata on '|' and takes part 1 as the
    server address. Split and the emptiness tests follow .NET's
    String.Split(char), String.IsNullOrEmpty and String.IsNullOrWhiteSpace
    (a null string is modelled as the empty one). */
module Payload {
  import opened Basics

  const Separator: char := '|'

  const Tag: string := "SharedSpatialAnchorSession"

  /** The advertised metadata for a host address. */
  function Encode(host: string): (payload: string)
    ensures |payload| == |Tag| + 1 + |host|
    ensures payload[..|Tag|] == Tag && payload[|Tag|] == Separator && payload[|Tag| + 1..] == host
  {
    Tag + [Separator] + host
  }

  /** String.Split(sep): the pieces between separators, empty ones
      included, so n separators give n + 1 parts. */
  function Split(s: string, sep: char): (parts: seq<string>)
    ensures |parts| >= 1
    decreases |s|
  {
    if s == [] then [""]
    else
      var rest := Split(s[1..], sep);
      if s[0] == sep then [""] + rest
      else [[s[0]] + rest[0]] + rest[1..]
  }

  /** String.Join(sep, parts). */
  function Join(parts: seq<string>, sep: char): string
    requires |parts| >= 1
    decreases |parts|
  {
    if |parts| == 1 then parts[0] else parts[0] + [sep] + Join(parts[1..], sep)
  }

  function Count(s: string, c: char): nat
    decreases |s|
  {
    if s == [] then 0 else (if s[0] == c then 1 else 0) + Count(s[1..], c)
  }

  predicate SeparatorFree(parts: seq<string>, sep: char) {
    forall i :: 0 <= i < |parts| ==> sep !in parts[i]
  }

  /** The address a client reads from discovered metadata: part 1 of the
      split, or nothing when there are fewer than two parts. */
  function Parse(payload: string): (r: Option<string>)
    ensures r.Some? ==> Separator !in r.value
  {
    var parts := Split(payload, Separator);
    SplitShape(payload, Separator);
    if |parts| < 2 then None else Some(parts[1])
  }

  // ---------------------------------------------------------------------
  // Split and Join
  // ---------------------------------------------------------------------

  lemma {:induction false} JoinConsFirst(c: char, parts: seq<string>, sep: char)
    requires |parts| >= 1
    ensures Join([[c] + parts[0]] + parts[1..], sep) == [c] + Join(parts, sep)
  {
    var ps := [[c] + parts[0]] + parts[1..];
    assert ps[1..] == parts[1..];
  }

  /** Splitting loses nothing: joining the parts back gives the string. */
  lemma {:induction false} JoinSplit(s: string, sep: char)
    ensures Join(Split(s, sep), sep) == s
    decreases |s|
  {
    if s != [] {
      var rest := Split(s[1..], sep);
      JoinSplit(s[1..], sep);
      if s[0] == sep {
        assert ([""] + rest)[1..] == rest;
      } else {
        JoinConsFirst(s[0], rest, sep);
      }
      assert s == [s[0]] + s[1..];
    }
  }

  /** One part per separator plus one, and no part holds a separator. */
  lemma {:induction false} SplitShape(s: string, sep: char)
    ensures |Split(s, sep)| == Count(s, sep) + 1
    ensures SeparatorFree(Split(s, sep), sep)
    decreases |s|
  {
    if s != [] {
      SplitShape(s[1..], sep);
      var rest := Split(s[1..], sep);
      var parts := Split(s, sep);
      if s[0] == sep {
        assert forall i :: 1 <= i < |parts| ==> parts[i] == rest[i - 1];
      } else {
        assert forall i :: 1 <= i < |parts| ==> parts[i] == rest[i];
        assert parts[0] == [s[0]] + rest[0];
      }
    }
  }

  lemma {:induction false} CountZero(s: string, c: char)
    ensures Count(s, c) == 0 <==> c !in s
    decreases |s|
  {
    if s != [] {
      CountZero(s[1..], c);
      assert s == [s[0]] + s[1..];
    }
  }

  /** A string without separators is one part. */
  lemma {:induction false} SplitNoSeparator(x: string, sep: char)
    requires sep !in x
    ensures Split(x, sep) == [x]
    decreases |x|
  {
    if x != [] {
      SplitNoSeparator(x[1..], sep);
      assert x == [x[0]] + x[1..];
    }
  }

  /** A separator-free prefix followed by a separator is split off whole. */
  lemma {:induction false} SplitPrefix(x: string, y: string, sep: char)
    requires sep !in x
    ensures Split(x + [sep] + y, sep) == [x] + Split(y, sep)
    decreases |x|
  {
    var s := x + [sep] + y;
    if x == [] {
      assert s[1..] == y;
    } else {
      assert s[1..] == x[1..] + [sep] + y;
      SplitPrefix(x[1..], y, sep);
      assert x == [x[0]] + x[1..];
    }
  }

  /** Split undoes Join for separator-free parts. */
  lemma {:induction false} SplitJoin(parts: seq<string>, sep: char)
    requires |parts| >= 1 && SeparatorFree(parts, sep)
    ensures Split(Join(parts, sep), sep) == parts
    decreases |parts|
  {
    if |parts| == 1 {
      SplitNoSeparator(parts[0], sep);
    } else {
      assert SeparatorFree(parts[1..], sep) by {
        forall i | 0 <= i < |parts[1..]| ensures sep !in parts[1..][i] {
          assert parts[1..][i] == parts[i + 1];
        }
      }
      SplitJoin(parts[1..], sep);
      assert sep !in parts[0];
      SplitPrefix(parts[0], Join(parts[1..], sep), sep);
      assert parts == [parts[0]] + parts[1..];
    }
  }

  // ---------------------------------------------------------------------
  // The advertisement round trip
  // ---------------------------------------------------------------------

  /** A client finds an address in the metadata exactly when it holds a
      separator. */
  lemma ParseSucceedsIffSeparator(payload: string)
    ensures Parse(payload).Some? <==> Separator in payload
  {
    SplitShape(payload, Separator);
    CountZero(payload, Separator);
  }

  /** Whatever the host string, an encoded payload splits into at least two
      parts, and the address read back is the host cut at its first '|'. */
  lemma EncodeSplits(host: string)
    ensures Split(Encode(host), Separator) == [Tag] + Split(host, Separator)
    ensures Parse(Encode(host)) == Some(Split(host, Separator)[0])
  {
    assert Separator !in Tag;
    SplitPrefix(Tag, host, Separator);
  }

  /** The round trip: a host address without '|' is read back unchanged. */
  lemma ParseEncode(host: string)
    requires Separator !in host
    ensures Parse(Encode(host)) == Some(host)
  {
    EncodeSplits(host);
    SplitNoSeparator(host, Separator);
  }

  // ---------------------------------------------------------------------
  // Emptiness tests
  // ---------------------------------------------------------------------

  /** Char.IsWhiteSpace: the Unicode space, line and paragraph separators
      together with U+0009..U+000D and U+0085. */
  predicate IsWhiteSpace(c: char) {
    ('\U{9}' <= c <= '\U{D}') || c == '\U{20}' || c == '\U{85}' || c == '\U{A0}'
    || c == '\U{1680}' || ('\U{2000}' <= c <= '\U{200A}') || c == '\U{2028}' || c == '\U{2029}'
    || c == '\U{202F}' || c == '\U{205F}' || c == '\U{3000}'
  }

  predicate IsNullOrEmpty(s: string) {
    |s| == 0
  }

  predicate IsNullOrWhiteSpace(s: string) {
    forall i :: 0 <= i < |s| ==> IsWhiteSpace(s[i])
  }

  /** The whitespace test rejects everything the emptiness test rejects,
      and more: it also rejects strings of blanks. */
  lemma WhiteSpaceRejectsMore(s: string)
    ensures IsNullOrEmpty(s) ==> IsNullOrWhiteSpace(s)
    ensures IsNullOrWhiteSpace(" ") && !IsNullOrEmpty(" ")
  {
  }
}
