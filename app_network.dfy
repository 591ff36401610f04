/**
 * `App.getLocalIP` (`app.go`): the address the satellite server announces. The
 * first non-loopback IPv4 address in the "192.168." range wins; failing that,
 * the first other non-loopback IPv4 address in the order the system lists them
 * (the "10." and "172." branches append like any other address, so they are not
 * preferred); failing that, the loopback address.
 */
module LocalNetwork {
  import opened Wrappers
  import opened Text

  /**
   * One entry of `net.InterfaceAddrs`: whether it is an `*net.IPNet`, whether
   * its address is a loopback one or has an IPv4 form, and `IP.String()`.
   */
  datatype InterfaceAddr = InterfaceAddr(isIPNet: bool, loopback: bool, ipv4: bool, text: string)

  const LoopbackIP: string := "127.0.0.1"
  const HomePrefix: string := "192.168."
  const CorporatePrefix: string := "10."
  const PrivatePrefix: string := "172."

  /** A non-loopback IPv4 network address. */
  predicate Candidate(a: InterfaceAddr)
  {
    a.isIPNet && !a.loopback && a.ipv4
  }

  predicate Home(a: InterfaceAddr)
  {
    Candidate(a) && HasPrefix(a.text, HomePrefix)
  }

  /** The position of the first candidate, `|addrs|` when there is none. */
  function FirstCandidate(addrs: seq<InterfaceAddr>): (r: nat)
    ensures r <= |addrs|
    ensures forall j :: 0 <= j < r ==> !Candidate(addrs[j])
    ensures r < |addrs| ==> Candidate(addrs[r])
  {
    if addrs == [] then 0
    else if Candidate(addrs[0]) then 0
    else 1 + FirstCandidate(addrs[1..])
  }

  /** The position of the first "192.168." candidate, `|addrs|` when there is none. */
  function FirstHome(addrs: seq<InterfaceAddr>): (r: nat)
    ensures r <= |addrs|
    ensures forall j :: 0 <= j < r ==> !Home(addrs[j])
    ensures r < |addrs| ==> Home(addrs[r])
  {
    if addrs == [] then 0
    else if Home(addrs[0]) then 0
    else 1 + FirstHome(addrs[1..])
  }

  /** The announced address, given what `net.InterfaceAddrs` returned. */
  function LocalIP(addrs: Result<seq<InterfaceAddr>>): string
  {
    match addrs
    case Err(_) => LoopbackIP
    case Ok(list) =>
      if FirstHome(list) < |list| then list[FirstHome(list)].text
      else if FirstCandidate(list) < |list| then list[FirstCandidate(list)].text
      else LoopbackIP
  }

  /** `getLocalIP`: one pass over the addresses, returning at the first "192.168." one and collecting the others. */
  method GetLocalIP(addrs: Result<seq<InterfaceAddr>>) returns (ip: string)
    ensures ip == LocalIP(addrs)
  {
    if addrs.Err? {
      return LoopbackIP;
    }
    var list := addrs.value;
    var candidates: seq<string> := [];
    for i := 0 to |list|
      invariant forall j :: 0 <= j < i ==> !Home(list[j])
      invariant candidates == [] <==> forall j :: 0 <= j < i ==> !Candidate(list[j])
      invariant candidates != [] ==> FirstCandidate(list) < i && candidates[0] == list[FirstCandidate(list)].text
    {
      var address := list[i];
      if address.isIPNet && !address.loopback {
        if address.ipv4 {
          var text := address.text;
          if HasPrefix(text, HomePrefix) {
            assert FirstHome(list) == i;
            return text;
          }
          if HasPrefix(text, CorporatePrefix) {
            candidates := candidates + [text];
            continue;
          }
          if HasPrefix(text, PrivatePrefix) {
            candidates := candidates + [text];
            continue;
          }
          candidates := candidates + [text];
        }
      }
    }
    if |candidates| > 0 {
      return candidates[0];
    }
    return LoopbackIP;
  }

  /**
   * The announced address is the loopback one exactly when the listing failed
   * or holds no candidate; otherwise it is a "192.168." candidate with none of
   * that range before it, and when there is no such candidate it is the first
   * candidate of all, whatever its range.
   */
  lemma LocalIPChoice(addrs: Result<seq<InterfaceAddr>>)
    ensures var ip := LocalIP(addrs);
      && (addrs.Err? ==> ip == LoopbackIP)
      && (addrs.Ok? ==>
            var list := addrs.value;
            && ((forall j :: 0 <= j < |list| ==> !Candidate(list[j])) ==> ip == LoopbackIP)
            && ((exists j :: 0 <= j < |list| && Home(list[j])) ==>
                  exists k :: 0 <= k < |list| && Home(list[k]) && list[k].text == ip
                    && forall j :: 0 <= j < k ==> !Home(list[j]))
            && ((forall j :: 0 <= j < |list| ==> !Home(list[j])) && (exists j :: 0 <= j < |list| && Candidate(list[j])) ==>
                  exists k :: 0 <= k < |list| && Candidate(list[k]) && list[k].text == ip
                    && forall j :: 0 <= j < k ==> !Candidate(list[j])))
  {
    if addrs.Ok? {
      var list := addrs.value;
      if exists j :: 0 <= j < |list| && Home(list[j]) {
        assert FirstHome(list) < |list|;
      } else if exists j :: 0 <= j < |list| && Candidate(list[j]) {
        assert FirstCandidate(list) < |list|;
      }
    }
  }
}
