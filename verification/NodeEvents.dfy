/** The filter between the node events the device sees and those it publishes to the application. */
module NodeEvents {
  import opened Basics
  import opened Peers
  import opened Requested

  datatype NodeState = Disconnected | Connecting | Connected
  datatype PathType = Relay | DirectPath

  datatype Node = Node(
    identifier: string, publicKey: PublicKey, nickname: Option<string>, state: NodeState, linkState: Option<LinkState>,
    isExit: bool, isVpn: bool, ipAddresses: seq<IpAddr>, allowedIps: seq<IpNet>, endpoint: Option<SocketAddr>,
    hostname: Option<string>, permissions: (bool, bool, bool, bool), path: PathType, multicast: (bool, bool))

  function NodeFromExitNode(e: ExitNode, state: NodeState, linkDetection: bool): Node {
    Node(e.identifier, e.publicKey, None, state, if linkDetection then Some(Down) else None, true, e.endpoint.Some?,
         [VPN_EXTERNAL_IPV4, VPN_INTERNAL_IPV4], e.allowedIps.GetOr([]), e.endpoint, None, (false, false, false, false),
         DirectPath, (false, false))
  }

  /** The three places an event is published from, with the state each consults. */
  datatype Source =
    | FromWireGuard(node: Node, pqPeer: Option<PublicKey>)
    | FromPqConnecting(key: PublicKey, exitNode: Option<ExitNode>)
    | FromPqDisconnected(key: PublicKey, lastExitNode: Option<ExitNode>)

  /** What was last sent for each key, and everything sent so far. */
  datatype Filter = Filter(last: map<PublicKey, Node>, published: seq<Node>)

  predicate IsDuplicated(f: Filter, n: Node) {
    if n.publicKey in f.last then n == f.last[n.publicKey] else n.state == Disconnected
  }

  /** A tunnel the post-quantum entity is still working on is not reported as gone. */
  predicate Suppressed(n: Node, pqPeer: Option<PublicKey>) {
    pqPeer == Some(n.publicKey) && n.state == Disconnected
  }

  function Publish(f: Filter, n: Node): Filter {
    Filter(if n.state == Disconnected then f.last - {n.publicKey} else f.last[n.publicKey := n], f.published + [n])
  }

  function Offer(f: Filter, n: Node): Filter {
    if IsDuplicated(f, n) then f else Publish(f, n)
  }

  /** The event a source offers to the filter, if it offers any. */
  function Offered(e: Source, linkDetection: bool): Option<Node> {
    match e
    case FromWireGuard(n, pqPeer) => if Suppressed(n, pqPeer) then None else Some(n)
    case FromPqConnecting(key, exit) =>
      if exit.Some? && exit.value.publicKey == key
      then Some(NodeFromExitNode(exit.value, Connecting, linkDetection)) else None
    case FromPqDisconnected(key, last) =>
      if last.Some? && last.value.publicKey == key
      then Some(NodeFromExitNode(last.value, Disconnected, linkDetection)) else None
  }

  function Handle(f: Filter, e: Source, linkDetection: bool): Filter {
    var n := Offered(e, linkDetection);
    if n.Some? then Offer(f, n.value) else f
  }

  class EventPublisher {
    const linkDetection: bool
    var last: map<PublicKey, Node>
    var published: seq<Node>

    ghost function View(): Filter
      reads this
    {
      Filter(last, published)
    }

    constructor (linkDetection: bool)
      ensures this.linkDetection == linkDetection && View() == Filter(map[], [])
    {
      this.linkDetection := linkDetection;
      last, published := map[], [];
    }

    method Send(n: Node)
      requires !IsDuplicated(View(), n)
      modifies this
      ensures View() == Publish(old(View()), n)
    {
      published := published + [n];
      if n.state == Disconnected {
        last := last - {n.publicKey};
      } else {
        last := last[n.publicKey := n];
      }
    }

    method OnEvent(e: Source)
      modifies this
      ensures View() == Handle(old(View()), e, linkDetection)
    {
      match e {
        case FromWireGuard(n, pqPeer) =>
          if !IsDuplicated(Filter(last, published), n) && !Suppressed(n, pqPeer) {
            Send(n);
          }
        case FromPqConnecting(key, exit) =>
          if exit.Some? && exit.value.publicKey == key {
            var n := NodeFromExitNode(exit.value, Connecting, linkDetection);
            if !IsDuplicated(Filter(last, published), n) {
              Send(n);
            }
          }
        case FromPqDisconnected(key, lastExit) =>
          if lastExit.Some? && lastExit.value.publicKey == key {
            var n := NodeFromExitNode(lastExit.value, Disconnected, linkDetection);
            if !IsDuplicated(Filter(last, published), n) {
              Send(n);
            }
          }
      }
    }
  }

  /** The events published about one key. */
  function StreamOf(published: seq<Node>, k: PublicKey): seq<Node> {
    if published == [] then []
    else
      var init, n := published[..|published| - 1], published[|published| - 1];
      StreamOf(init, k) + if n.publicKey == k then [n] else []
  }

  /** Starts connected or connecting, never repeats itself, and disconnects only from something. */
  ghost predicate Orderly(s: seq<Node>) {
    && (s != [] ==> s[0].state != Disconnected)
    && (forall i :: 0 < i < |s| ==> s[i] != s[i - 1])
    && (forall i :: 0 < i < |s| && s[i].state == Disconnected ==> s[i - 1].state != Disconnected)
  }

  /** The remembered event of a key is the last one of its stream, unless that was a disconnection. */
  ghost predicate Remembers(f: Filter, k: PublicKey) {
    var s := StreamOf(f.published, k);
    && (k in f.last <==> s != [] && s[|s| - 1].state != Disconnected)
    && (k in f.last ==> f.last[k] == s[|s| - 1])
  }

  lemma OfferKeeps(f: Filter, n: Node, k: PublicKey)
    requires Remembers(f, k) && Orderly(StreamOf(f.published, k))
    ensures Remembers(Offer(f, n), k) && Orderly(StreamOf(Offer(f, n).published, k))
  {
    hide StreamOf, Orderly;
    if !IsDuplicated(f, n) {
      StreamSnoc(f.published, n, k);
      var s := StreamOf(f.published, k);
      if n.publicKey == k {
        OrderlySnoc(s, n);
        assert StreamOf(Offer(f, n).published, k) == s + [n];
      } else {
        assert StreamOf(Offer(f, n).published, k) == s;
      }
    }
  }

  lemma StreamSnoc(published: seq<Node>, n: Node, k: PublicKey)
    ensures StreamOf(published + [n], k) == StreamOf(published, k) + if n.publicKey == k then [n] else []
  {
    assert (published + [n])[..|published|] == published;
  }

  /** A stream stays orderly when it goes on with something new, and with a loss only after something else. */
  lemma OrderlySnoc(s: seq<Node>, n: Node)
    requires Orderly(s)
    requires n.state == Disconnected ==> s != [] && s[|s| - 1].state != Disconnected
    requires s != [] ==> n != s[|s| - 1]
    ensures Orderly(s + [n])
  {
    assert forall i :: 0 <= i < |s| ==> (s + [n])[i] == s[i];
  }

  function HandleAll(es: seq<Source>, linkDetection: bool): Filter {
    if es == [] then Filter(map[], [])
    else Handle(HandleAll(es[..|es| - 1], linkDetection), es[|es| - 1], linkDetection)
  }

  /** Whatever events arrive, from whichever source, the application sees an orderly stream for every key. */
  lemma {:induction false} StreamsAreOrderly(es: seq<Source>, linkDetection: bool, k: PublicKey)
    ensures Remembers(HandleAll(es, linkDetection), k)
    ensures Orderly(StreamOf(HandleAll(es, linkDetection).published, k))
  {
    if es != [] {
      hide Remembers, Orderly, StreamOf, Offer, Offered;
      var f, e := HandleAll(es[..|es| - 1], linkDetection), es[|es| - 1];
      StreamsAreOrderly(es[..|es| - 1], linkDetection, k);
      if Offered(e, linkDetection).Some? {
        OfferKeeps(f, Offered(e, linkDetection).value, k);
      }
    }
  }

  /**
   The filter loses nothing else: at every publishing site an event is withheld exactly if the site has none to offer,
   it repeats the last one, or it reports a loss that needs no report.
   */
  lemma WithheldOnlyIfRedundant(f: Filter, e: Source, linkDetection: bool)
    requires Offered(e, linkDetection).Some? ==> Remembers(f, Offered(e, linkDetection).value.publicKey)
    ensures Handle(f, e, linkDetection) == f <==>
            var offer := Offered(e, linkDetection);
            offer.Some? ==>
              var n := offer.value;
              var s := StreamOf(f.published, n.publicKey);
              || (s != [] && s[|s| - 1].state != Disconnected && n == s[|s| - 1])
              || (n.state == Disconnected && (s == [] || s[|s| - 1].state == Disconnected))
  {
    hide Offered;
    if Offered(e, linkDetection).Some? {
      var n := Offered(e, linkDetection).value;
      assert |Publish(f, n).published| == |f.published| + 1;
    }
  }
}
