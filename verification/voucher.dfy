/**
 * The voucher parser: an inbound denomination "port/channel/denom" is accepted
 * only when its prefix names the packet's source endpoint, and resolves to the
 * local denomination after the prefix.
 */
module Voucher {
  import opened Wrappers
  import opened Ics20Types

  /** A denomination resolved to this chain's own name for it. */
  datatype Voucher = Voucher(denom: string)

  /** Index of the first `c` in `s`. */
  function Find(s: string, c: char): (r: Option<nat>)
    ensures r.None? <==> c !in s
    ensures r.Some? ==> r.value < |s| && s[r.value] == c && c !in s[..r.value]
  {
    if |s| == 0 then None
    else if s[0] == c then Some(0)
    else
      match Find(s[1..], c)
      case None =>
        assert s == [s[0]] + s[1..];
        None
      case Some(i) =>
        assert s[..i + 1] == [s[0]] + s[1..][..i];
        Some(i + 1)
  }

  /** Splits `s` at the first `sep`, dropping the separator. */
  function SplitOnce(s: string, sep: char): (r: Option<(string, string)>)
    ensures r.None? <==> sep !in s
    ensures r.Some? ==> s == r.value.0 + [sep] + r.value.1 && sep !in r.value.0
  {
    match Find(s, sep)
    case None => None
    case Some(i) =>
      assert s == s[..i] + [sep] + s[i + 1..];
      Some((s[..i], s[i + 1..]))
  }

  /**
   * `s.splitn(3, '/')`: at most three pieces; the first two never hold a '/',
   * the last one keeps every '/' after the second.
   */
  function SplitN3(s: string): (parts: seq<string>)
    ensures 1 <= |parts| <= 3
    ensures |parts| == 1 ==> parts[0] == s && '/' !in s
    ensures |parts| == 2 ==> s == parts[0] + "/" + parts[1] && '/' !in parts[0] && '/' !in parts[1]
    ensures |parts| == 3 ==> s == parts[0] + "/" + parts[1] + "/" + parts[2] && '/' !in parts[0] && '/' !in parts[1]
  {
    match SplitOnce(s, '/')
    case None => [s]
    case Some((first, rest)) =>
      match SplitOnce(rest, '/')
      case None => [first, rest]
      case Some((second, tail)) =>
        JoinThree(s, first, rest, second, tail);
        [first, second, tail]
  }

  /** Two splits at '/' put the three pieces back together with '/' between them. */
  lemma JoinThree(s: string, first: string, rest: string, second: string, tail: string)
    requires s == first + ['/'] + rest && rest == second + ['/'] + tail
    ensures s == first + "/" + second + "/" + tail
  {
    assert s == first + "/" + (second + "/" + tail);
  }

  /**
   * Resolves `voucherDenom` against the endpoint the packet came from. An accepted
   * denomination is exactly the endpoint's port and channel followed by the local denom.
   */
  function ParseVoucher(voucherDenom: string, remoteEndpoint: IbcEndpoint): (r: Result<Voucher, ContractError>)
    ensures r.Ok? ==> voucherDenom == remoteEndpoint.portId + "/" + remoteEndpoint.channelId + "/" + r.value.denom
    ensures r.Ok? ==> '/' !in remoteEndpoint.portId && '/' !in remoteEndpoint.channelId
    ensures r.Err? ==> r.error == NoForeignTokens || r.error.FromOtherPort? || r.error.FromOtherChannel?
  {
    var split := SplitN3(voucherDenom);
    if |split| != 3 then Err(NoForeignTokens)
    else if split[0] != remoteEndpoint.portId then Err(FromOtherPort(split[0]))
    else if split[1] != remoteEndpoint.channelId then Err(FromOtherChannel(split[1]))
    else Ok(Voucher(split[2]))
  }

  /** A string splits at its first separator when the part before it holds none. */
  lemma SplitOnceAt(p: string, rest: string)
    requires '/' !in p
    ensures SplitOnce(p + "/" + rest, '/') == Some((p, rest))
  {
    var s := p + "/" + rest;
    assert s[|p|] == '/';
    var i := Find(s, '/').value;
    assert i == |p|;
    assert s[..i] == p;
    assert s[i + 1..] == rest;
  }

  /** `splitn(3, '/')` of "p/c/d" is [p, c, d] whenever p and c hold no '/', whatever d holds. */
  lemma SplitN3Of(p: string, c: string, d: string)
    requires '/' !in p && '/' !in c
    ensures SplitN3(p + "/" + c + "/" + d) == [p, c, d]
  {
    var s := p + "/" + c + "/" + d;
    assert s == p + "/" + (c + "/" + d);
    SplitOnceAt(p, c + "/" + d);
    assert SplitOnce(s, '/') == Some((p, c + "/" + d));
    SplitOnceAt(c, d);
    assert SplitOnce(c + "/" + d, '/') == Some((c, d));
  }

  /** Prefixing a denom with the source endpoint and parsing it gives the denom back. */
  lemma {:induction false} VoucherRoundTrip(port: string, channel: string, denom: string)
    requires '/' !in port && '/' !in channel
    ensures ParseVoucher(port + "/" + channel + "/" + denom, IbcEndpoint(port, channel)) == Ok(Voucher(denom))
  {
    SplitN3Of(port, channel, denom);
  }

  /** A denomination with fewer than two '/' is not a voucher at all. */
  lemma {:induction false} VoucherTooFewParts(a: string, b: string, remote: IbcEndpoint)
    requires '/' !in a && '/' !in b
    ensures ParseVoucher(a, remote) == Err(NoForeignTokens)
    ensures ParseVoucher(a + "/" + b, remote) == Err(NoForeignTokens)
  {
    assert SplitOnce(a, '/').None?;
    SplitOnceAt(a, b);
    assert SplitOnce(b, '/').None?;
  }

  /** A voucher whose first part is not the source port is refused, naming that part. */
  lemma {:induction false} VoucherFromOtherPort(p: string, c: string, d: string, remote: IbcEndpoint)
    requires '/' !in p && '/' !in c && p != remote.portId
    ensures ParseVoucher(p + "/" + c + "/" + d, remote) == Err(FromOtherPort(p))
  {
    SplitN3Of(p, c, d);
  }

  /** A voucher from the right port but another channel is refused, naming that channel. */
  lemma {:induction false} VoucherFromOtherChannel(c: string, d: string, remote: IbcEndpoint)
    requires '/' !in remote.portId && '/' !in c && c != remote.channelId
    ensures ParseVoucher(remote.portId + "/" + c + "/" + d, remote) == Err(FromOtherChannel(c))
  {
    SplitN3Of(remote.portId, c, d);
  }
}
