/**
 * Device resolver and TC attachment manager of pkg/utils: the checks made on a
 * network interface before its veth peer is looked up, the lookup of an
 * interface by name, address membership, and the mode check of
 * ManageTCProgramByFd. The kernel (netlink) is represented by the values and
 * functions the operations receive as parameters.
 */
module Tc {
  import opened Results
  import opened Text

  // Bits of Go's net.Flags (a bit set) that the decisions read.
  const FlagUp: bv64 := 1
  const FlagLoopback: bv64 := 4

  // The two TC modes a caller may ask for (constants.TC_ATTACH, constants.TC_DETACH).
  const TcAttach := 1
  const TcDetach := 2

  /** An IP address; an IPv4 address never equals an IPv6 one. */
  datatype Addr = V4(v4: bv32) | V6(v6: bv128)

  /** An address bound to an interface, in CIDR form. */
  datatype IPNet = IPNet(ip: Addr, prefixLen: nat)

  /** A network interface as the OS reports it, with the addresses bound to it. */
  datatype Iface = Iface(index: int, name: string, flags: bv64, addrs: seq<IPNet>)

  /** What the link-control capability reports for a link index. */
  datatype LinkInfo = LinkInfo(kind: string, vethPeerIndex: int)

  /** The link a TC program is attached to (the attributes the manager reads). */
  datatype Link = Link(index: int, name: string)

  datatype TcMode = Attach | Detach

  datatype ErrorKind =
    | LocalInterface
    | NotUp
    | NotVeth
    | LookupFailure
    | InterfaceNotFound
    | InvalidMode
    | LinkOperation

  /** An error: its kind and the text a Go caller sees from err.Error(). */
  datatype TcError = TcError(kind: ErrorKind, msg: string)

  predicate IsUp(iface: Iface) {
    iface.flags & FlagUp != 0
  }

  predicate IsLoopback(iface: Iface) {
    iface.flags & FlagLoopback != 0
  }

  /**
   * GetVethPeerIndexFromInterface: a loopback interface is refused as a local
   * interface, an interface that is not up is refused as not up, and only then
   * is the link kind queried; the peer index of a veth link is the answer.
   */
  function GetVethPeerIndexFromInterface(iface: Iface, links: map<int, LinkInfo>): (r: Result<int, TcError>)
    ensures IsLoopback(iface) ==>
              r.Err? && r.error.kind == LocalInterface && Contains(r.error.msg, "local interface")
    ensures !IsLoopback(iface) && !IsUp(iface) ==>
              r.Err? && r.error.kind == NotUp && Contains(r.error.msg, "not up")
    ensures r.Ok? <==>
              !IsLoopback(iface) && IsUp(iface) && iface.index in links && links[iface.index].kind == "veth"
    ensures r.Ok? ==> r.value == links[iface.index].vethPeerIndex
    ensures !IsLoopback(iface) && IsUp(iface) && iface.index !in links ==>
              r.Err? && r.error.kind == LookupFailure
    ensures !IsLoopback(iface) && IsUp(iface) && iface.index in links && links[iface.index].kind != "veth" ==>
              r.Err? && r.error.kind == NotVeth
  {
    if IsLoopback(iface) then
      ContainsSuffix("interface " + iface.name + " is a ", "local interface");
      Err(TcError(LocalInterface, "interface " + iface.name + " is a " + "local interface"))
    else if !IsUp(iface) then
      ContainsSuffix("interface " + iface.name + " is ", "not up");
      Err(TcError(NotUp, "interface " + iface.name + " is " + "not up"))
    else if iface.index !in links then
      Err(TcError(LookupFailure, "failed to get link of interface " + iface.name))
    else if links[iface.index].kind != "veth" then
      Err(TcError(NotVeth, "interface " + iface.name + " is not a veth"))
    else
      Ok(links[iface.index].vethPeerIndex)
  }

  /** Entry `i` is the first interface of the OS table named `name`. */
  predicate FirstNamed(table: seq<Iface>, name: string, i: int) {
    0 <= i < |table| && table[i].name == name && forall j :: 0 <= j < i ==> table[j].name != name
  }

  /** At most one entry is the first with a given name. */
  lemma FirstNamedUnique(table: seq<Iface>, name: string, i: int, k: int)
    requires FirstNamed(table, name, i) && FirstNamed(table, name, k)
    ensures i == k
  {
  }

  /**
   * Go's net.InterfaceByName: the empty name is refused outright, otherwise the
   * first interface of the OS table with that name is the answer.
   */
  function InterfaceByName(name: string, table: seq<Iface>): (r: Result<Iface, TcError>)
    ensures r.Ok? <==> name != "" && exists i :: 0 <= i < |table| && table[i].name == name
    ensures r.Err? ==> r.error.kind == InterfaceNotFound
    ensures r.Ok? ==> exists i :: FirstNamed(table, name, i) && table[i] == r.value
    decreases |table|
  {
    if name == "" then
      Err(TcError(InterfaceNotFound, "invalid network interface name"))
    else if table == [] then
      Err(TcError(InterfaceNotFound, "no such network interface"))
    else if table[0].name == name then
      assert FirstNamed(table, name, 0);
      Ok(table[0])
    else
      match InterfaceByName(name, table[1..])
      case Ok(iface) =>
        assert forall i :: 1 <= i < |table| ==> table[i] == table[1..][i - 1];
        assert exists i :: FirstNamed(table, name, i) && table[i] == iface by {
          var k :| FirstNamed(table[1..], name, k) && table[1..][k] == iface;
          assert FirstNamed(table, name, k + 1);
        }
        Ok(iface)
      case Err(e) =>
        assert forall i :: 1 <= i < |table| ==> table[i] == table[1..][i - 1];
        Err(e)
  }

  /**
   * GetVethPeerIndexFromName: an empty or unknown name fails; otherwise the
   * first interface with that name goes through GetVethPeerIndexFromInterface.
   */
  function GetVethPeerIndexFromName(name: string, table: seq<Iface>, links: map<int, LinkInfo>): (r: Result<int, TcError>)
    ensures name == "" ==> r.Err? && r.error.kind == InterfaceNotFound
    ensures (forall i :: 0 <= i < |table| ==> table[i].name != name) ==>
              r.Err? && r.error.kind == InterfaceNotFound
    ensures r.Ok? <==>
              name != "" &&
              exists i :: FirstNamed(table, name, i) &&
                IsUp(table[i]) && !IsLoopback(table[i]) &&
                table[i].index in links && links[table[i].index].kind == "veth"
    ensures forall i :: FirstNamed(table, name, i) && r.Ok? ==>
              r.value == links[table[i].index].vethPeerIndex
  {
    match InterfaceByName(name, table)
    case Err(e) =>
      assert name != "" ==> forall i :: !FirstNamed(table, name, i);
      Err(e)
    case Ok(iface) =>
      assert forall i :: FirstNamed(table, name, i) ==> table[i] == iface by {
        var k :| FirstNamed(table, name, k) && table[k] == iface;
        forall i | FirstNamed(table, name, i)
          ensures table[i] == iface
        {
          FirstNamedUnique(table, name, i, k);
        }
      }
      GetVethPeerIndexFromInterface(iface, links)
  }

  /** A name whose first entry in the OS table is a loopback interface (such as "lo") never resolves. */
  lemma LoopbackNameRefused(name: string, table: seq<Iface>, links: map<int, LinkInfo>, i: nat)
    requires name != "" && FirstNamed(table, name, i) && IsLoopback(table[i])
    ensures GetVethPeerIndexFromName(name, table, links).Err?
    ensures GetVethPeerIndexFromName(name, table, links).error.kind == LocalInterface
  {
    var r := InterfaceByName(name, table);
    var k :| FirstNamed(table, name, k) && table[k] == r.value;
    FirstNamedUnique(table, name, i, k);
  }

  /** Whether `a` is the address part of one of `addrs`. */
  function BoundIn(addrs: seq<IPNet>, a: Addr): (b: bool)
    ensures b <==> exists j :: 0 <= j < |addrs| && addrs[j].ip == a
    decreases |addrs|
  {
    if addrs == [] then false
    else if addrs[0].ip == a then true
    else
      assert forall j :: 1 <= j < |addrs| ==> addrs[j] == addrs[1..][j - 1];
      BoundIn(addrs[1..], a)
  }

  /**
   * IfaceContainIPs: true iff some candidate string parses to an address bound
   * to the interface; unparseable candidates match nothing, and there is never
   * an error.
   */
  function IfaceContainIPs(iface: Iface, ips: seq<string>, parse: string -> Option<Addr>): (r: Result<bool, TcError>)
    ensures r.Ok?
    ensures r.value <==>
              exists i, j :: 0 <= i < |ips| && 0 <= j < |iface.addrs| && parse(ips[i]) == Some(iface.addrs[j].ip)
    decreases |ips|
  {
    if ips == [] then Ok(false)
    else
      assert forall i :: 1 <= i < |ips| ==> ips[i] == ips[1..][i - 1];
      match parse(ips[0])
      case Some(a) =>
        if BoundIn(iface.addrs, a) then Ok(true) else IfaceContainIPs(iface, ips[1..], parse)
      case None =>
        IfaceContainIPs(iface, ips[1..], parse)
  }

  /**
   * The printed form of any bound address (IPv4 or IPv6), placed anywhere among
   * other candidates, is found, provided parsing undoes printing.
   */
  lemma FormattedBoundAddressFound(iface: Iface, j: nat, before: seq<string>, after: seq<string>,
                                   parse: string -> Option<Addr>, format: Addr -> string)
    requires forall a :: parse(format(a)) == Some(a)
    requires j < |iface.addrs|
    ensures IfaceContainIPs(iface, before + [format(iface.addrs[j].ip)] + after, parse) == Ok(true)
  {
    var ips := before + [format(iface.addrs[j].ip)] + after;
    assert ips[|before|] == format(iface.addrs[j].ip);
    assert parse(ips[|before|]) == Some(iface.addrs[j].ip);
  }

  /** An unparseable candidate (such as "not-an-ip") changes nothing. */
  lemma UnparseableCandidateIgnored(iface: Iface, before: seq<string>, s: string, after: seq<string>,
                                    parse: string -> Option<Addr>)
    requires parse(s) == None
    ensures IfaceContainIPs(iface, before + [s] + after, parse) == IfaceContainIPs(iface, before + after, parse)
  {
    var with := before + [s] + after;
    var without := before + after;
    if IfaceContainIPs(iface, with, parse).value {
      var i, j :| 0 <= i < |with| && 0 <= j < |iface.addrs| && parse(with[i]) == Some(iface.addrs[j].ip);
      assert i != |before|;
      var i' := if i < |before| then i else i - 1;
      assert without[i'] == with[i];
    }
    if IfaceContainIPs(iface, without, parse).value {
      var i, j :| 0 <= i < |without| && 0 <= j < |iface.addrs| && parse(without[i]) == Some(iface.addrs[j].ip);
      var i' := if i < |before| then i else i + 1;
      assert with[i'] == without[i];
    }
  }

  /**
   * ManageTCProgramByFd: any mode other than attach (1) or detach (2) is refused
   * as an invalid mode before the kernel is asked anything. Attach replaces the
   * clsact qdisc and then installs the filter; detach removes the filter.
   * Kernel failures come back as link-operation errors.
   */
  function ManageTCProgramByFd(link: Link, fd: int, mode: int,
                               replaceQdisc: Link -> Option<string>,
                               applyFilter: (Link, int, TcMode) -> Option<string>): (r: Result<(), TcError>)
    ensures mode != TcAttach && mode != TcDetach ==>
              r.Err? && r.error.kind == InvalidMode && Contains(r.error.msg, "invalid mode")
    ensures mode == TcAttach ==> (r.Ok? <==> replaceQdisc(link).None? && applyFilter(link, fd, Attach).None?)
    ensures mode == TcDetach ==> (r.Ok? <==> applyFilter(link, fd, Detach).None?)
    ensures (mode == TcAttach || mode == TcDetach) && r.Err? ==> r.error.kind == LinkOperation
  {
    if mode == TcAttach then
      match replaceQdisc(link)
      case Some(e) => Err(TcError(LinkOperation, "failed to replace qdisc: " + e))
      case None =>
        match applyFilter(link, fd, Attach)
        case Some(e) => Err(TcError(LinkOperation, "failed to attach filter: " + e))
        case None => Ok(())
    else if mode == TcDetach then
      match applyFilter(link, fd, Detach)
      case Some(e) => Err(TcError(LinkOperation, "failed to detach filter: " + e))
      case None => Ok(())
    else
      ContainsSuffix("ManageTCProgramByFd: ", "invalid mode");
      Err(TcError(InvalidMode, "ManageTCProgramByFd: " + "invalid mode"))
  }

  /**
   * The invalid-mode answer does not depend on the link, the program fd or on
   * anything the kernel would do: no kernel call decides it.
   */
  lemma InvalidModeIndependentOfKernel(mode: int, link1: Link, fd1: int, link2: Link, fd2: int,
                                       q1: Link -> Option<string>, f1: (Link, int, TcMode) -> Option<string>,
                                       q2: Link -> Option<string>, f2: (Link, int, TcMode) -> Option<string>)
    requires mode != TcAttach && mode != TcDetach
    ensures ManageTCProgramByFd(link1, fd1, mode, q1, f1) == ManageTCProgramByFd(link2, fd2, mode, q2, f2)
  {
  }
}
