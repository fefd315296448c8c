/** Who closes a socket descriptor: `connect_bound`, `from_raw_fd`, the bind
paths of the listener and the server, `accept` and `peeloff`.

A descriptor has at most one owner. A call that is left, by returning or by
being dropped where it waits, drops what it owns: `Leave` is the one rule by
which an owner closes. Whatever else closes is an explicit `close` in the code.
*/
module Descriptors {
  import opened Wire
  import opened Addresses
  import Reassembling
  import Connecting
  import AssociationProofs

  /** The wrapper (`SctpSocket` and its like), the registration it moves into, or
      the value that was returned to the caller. */
  datatype Owner = Nobody | Wrapper | Registration | Caller

  class Descriptor {
    var owner: Owner
    var closes: nat
    const family: u16

    constructor (family: u16)
      ensures owner.Nobody? && closes == 0 && this.family == family
    {
      owner, closes, this.family := Nobody, 0, family;
    }

    /** Closed once and nobody's, or open and the caller's. */
    predicate Accounted()
      reads this
    {
      (owner.Nobody? && closes == 1) || (owner.Caller? && closes == 0)
    }

    /** Open, and nobody will close it. */
    predicate Leaked()
      reads this
    {
      owner.Nobody? && closes == 0
    }

    method Wrap()
      requires owner.Nobody?
      modifies this
      ensures owner.Wrapper? && closes == old(closes)
    {
      owner := Wrapper;
    }

    /** The end of a scope: an owner that is local to it is dropped and closes. */
    method Leave()
      modifies this
      ensures old(owner.Wrapper? || owner.Registration?) ==> owner.Nobody? && closes == old(closes) + 1
      ensures !old(owner.Wrapper? || owner.Registration?) ==> owner == old(owner) && closes == old(closes)
    {
      if owner.Wrapper? || owner.Registration? {
        owner := Nobody;
        Close();
      }
    }

    /** `libc::close`, whoever owns the descriptor. */
    method Close()
      modifies this
      ensures closes == old(closes) + 1 && owner == old(owner)
    {
      closes := closes + 1;
    }

    /** The registration takes the wrapper; if it fails, the wrapper is dropped in it. */
    method Register(works: bool)
      requires owner.Wrapper?
      modifies this
      ensures works ==> owner.Registration? && closes == old(closes)
      ensures !works ==> owner.Nobody? && closes == old(closes) + 1
    {
      if works {
        owner := Registration;
      } else {
        Leave();
      }
    }

    /** The registration is moved into the value that is returned. */
    method HandOut()
      requires owner.Registration?
      modifies this
      ensures owner.Caller? && closes == old(closes)
    {
      owner := Caller;
    }
  }

  datatype Failure = InvalidInput | InvalidAddress | System | ConnectFailed(error: Reassembling.SctpError)

  /** What became of a call: it handed out an owner, failed, was dropped where it waited, or waits. */
  datatype Result = Owned | Refused(why: Failure) | Abandoned | Waits

  // ---- connecting

  /** The answers of the kernel and the runtime to a connect, in order. */
  datatype ConnectAnswers = ConnectAnswers(
    socket: bool, nonBlocking: bool, apply: bool, events: bool, bind: bool, register: bool, connectx: bool)

  predicate SharePort(local: seq<SocketAddr>) {
    forall i :: 0 <= i < |local| ==> local[i].port == local[0].port
  }

  /** IPv6 as soon as any address is. */
  function Domain(addrs: seq<SocketAddr>): u16 {
    if exists i :: 0 <= i < |addrs| && addrs[i].V6? then AF_INET6 else AF_INET
  }

  ghost predicate TwoPorts(local: seq<SocketAddr>) {
    exists i, j :: 0 <= i < j < |local| && local[i].port != local[j].port
  }

  ghost predicate AnyV6(addrs: seq<SocketAddr>) {
    exists i :: 0 <= i < |addrs| && addrs[i].V6?
  }

  lemma AnyOfBoth(x: seq<SocketAddr>, y: seq<SocketAddr>)
    ensures AnyV6(x + y) <==> AnyV6(x) || AnyV6(y)
  {
    assert forall i :: 0 <= i < |x| ==> (x + y)[i] == x[i];
    assert forall i :: 0 <= i < |y| ==> (x + y)[|x| + i] == y[i];
  }

  /** `connect_bound` from the arguments on, with any run of the wait for the
      outcome. The descriptor that was opened is closed once, or open and the
      caller's, as soon as the call no longer waits; while it waits it is open.
      Nothing is opened for arguments that are refused. Success means that every
      answer was good and the wait came to an association; its socket is then
      one to which all results about associations apply. */
  method ConnectBound(local: seq<SocketAddr>, addrs: seq<SocketAddr>, answers: ConnectAnswers,
                      c: Connecting.State, run: seq<Connecting.Action>)
    returns (r: Result, d: Descriptor?)
    requires Connecting.Begins(c) && Connecting.IsRun(c, run)
    ensures d != null ==> fresh(d) && d.family == if AnyV6(addrs) || AnyV6(local) then 10 else 2
    ensures d == null <==> addrs == [] || TwoPorts(local) || !answers.socket
    ensures d == null ==> r.Refused?
    ensures d != null && !r.Waits? ==> d.Accounted()
    ensures d != null && r.Waits? ==> d.owner.Registration? && d.closes == 0
    ensures r.Owned? <==> d != null && d.owner.Caller?
    ensures r.Owned? ==> AssociationProofs.Untouched(Connecting.After(c, run).sock)
    ensures addrs == [] ==> r == Refused(InvalidInput)
    ensures addrs != [] ==> (r == Refused(InvalidAddress) <==> TwoPorts(local))
    ensures r.Refused? && r.why.ConnectFailed? ==> Connecting.After(c, run).sock.over
    ensures d != null && ReachesWait(answers, local) ==>
              match Connecting.After(c, run).pc
              case Established => r.Owned?
              case Failed(error) => r == Refused(ConnectFailed(error))
              case Dropped => r.Abandoned?
              case _ => r.Waits?
    ensures d != null && !ReachesWait(answers, local) ==> r == Refused(System)
  {
    d := null;
    if addrs == [] {
      return Refused(InvalidInput), d;
    }
    if !SharePort(local) {
      return Refused(InvalidAddress), d;
    }
    if !answers.socket {
      return Refused(System), d;
    }
    AnyOfBoth(addrs, local);
    d := new Descriptor(Domain(addrs + local));
    r := ConnectSocket(d, local, answers, c, run);
    if !r.Waits? {
      d.Leave();
    }
  }

  predicate ReachesWait(answers: ConnectAnswers, local: seq<SocketAddr>) {
    && answers.nonBlocking && answers.apply && answers.events && (local != [] ==> answers.bind)
    && answers.register && answers.connectx
  }

  /** `connect_bound` once it has a socket, up to where its scope is left. */
  method ConnectSocket(d: Descriptor, local: seq<SocketAddr>, answers: ConnectAnswers,
                       c: Connecting.State, run: seq<Connecting.Action>)
    returns (r: Result)
    requires d.owner.Nobody? && d.closes == 0
    requires Connecting.Begins(c) && Connecting.IsRun(c, run)
    modifies d
    ensures d.owner.Nobody? ==> d.closes == 1
    ensures !d.owner.Nobody? ==> d.closes == 0
    ensures r.Owned? <==> d.owner.Caller?
    ensures r.Waits? ==> d.owner.Registration?
    ensures r.Owned? ==> AssociationProofs.Untouched(Connecting.After(c, run).sock)
    ensures r.Refused? && r.why.ConnectFailed? ==> Connecting.After(c, run).sock.over
    ensures ReachesWait(answers, local) ==>
              match Connecting.After(c, run).pc
              case Established => r.Owned?
              case Failed(error) => r == Refused(ConnectFailed(error))
              case Dropped => r.Abandoned?
              case _ => r.Waits?
    ensures !ReachesWait(answers, local) ==> r == Refused(System)
  {
    d.Wrap();
    if !answers.nonBlocking || !answers.apply || !answers.events {
      return Refused(System);
    }
    if local != [] && !answers.bind {
      return Refused(System);
    }
    d.Register(answers.register);
    if !answers.register || !answers.connectx {
      return Refused(System);
    }
    Connecting.OutcomeIsSound(c, run, 0);
    match Connecting.After(c, run).pc {
      case Established =>
        Connecting.HandsOverIntact(c, run);
        d.HandOut();
        r := Owned;
      case Failed(error) => r := Refused(ConnectFailed(error));
      case Dropped => r := Abandoned;
      case _ => r := Waits;
    }
  }

  // ---- binding

  /** The answers to `setup`, in order. `events` is asked only of a server. */
  datatype SetupAnswers = SetupAnswers(
    apply: bool, events: bool, bind: bool, bindx: bool, listen: bool, nonBlocking: bool, register: bool)

  predicate ReachesRegister(a: SetupAnswers, addrs: seq<SocketAddr>, server: bool) {
    && a.apply && (server ==> a.events) && a.bind && (|addrs| > 1 ==> a.bindx)
    && a.listen && a.nonBlocking
  }

  /** `setup`: up to the registration the descriptor is nobody's. */
  method SetUp(d: Descriptor, addrs: seq<SocketAddr>, server: bool, a: SetupAnswers) returns (ok: bool)
    requires d.Leaked()
    modifies d
    ensures ok <==> ReachesRegister(a, addrs, server) && a.register
    ensures ok ==> d.owner.Registration? && d.closes == 0
    ensures !ok ==> d.owner.Nobody? && d.closes <= 1
    ensures !ok ==> (d.Leaked() <==> !ReachesRegister(a, addrs, server))
  {
    if !a.apply || (server && !a.events) || !a.bind {
      return false;
    }
    if |addrs| > 1 && !a.bindx {
      return false;
    }
    if !a.listen || !a.nonBlocking {
      return false;
    }
    d.Wrap();
    d.Register(a.register);
    return a.register;
  }

  /** `bind_impl` of the listener and of the server. The descriptor is accounted
      for if and only if it is not the registration that failed: the wrapper
      dropped there has closed it, and it is closed a second time. */
  method BindImpl(addrs: seq<SocketAddr>, server: bool, socket: bool, a: SetupAnswers)
    returns (r: Result, d: Descriptor?)
    ensures d == null <==> addrs == [] || !socket
    ensures d == null ==> r == Refused(if addrs == [] then InvalidInput else System)
    ensures d != null ==> fresh(d) && d.family == (if AnyV6(addrs) then 10 else 2) && !d.Leaked()
    ensures d != null ==> (d.Accounted() <==> (ReachesRegister(a, addrs, server) ==> a.register))
    ensures d != null && !d.Accounted() ==> d.closes == 2
    ensures r.Owned? <==> d != null && d.owner.Caller?
    ensures d != null ==> (r.Owned? <==> ReachesRegister(a, addrs, server) && a.register)
    ensures !r.Owned? ==> r.Refused?
  {
    d := null;
    if addrs == [] {
      return Refused(InvalidInput), d;
    }
    if !socket {
      return Refused(System), d;
    }
    d := new Descriptor(Domain(addrs));
    var ok := SetUp(d, addrs, server, a);
    if ok {
      d.HandOut();
      r := Owned;
    } else {
      d.Close();
      r := Refused(System);
    }
    d.Leave();
  }

  // ---- descriptors that come from the kernel: accept and peeloff

  /** The answers to `from_raw_fd`, in order. */
  datatype WrapAnswers = WrapAnswers(nonBlocking: bool, events: bool, register: bool)

  /** `from_raw_fd`, and so `peeloff`. Whatever happens, the descriptor is
      accounted for, or it is leaked; it is leaked exactly if an option call
      fails, which comes before anything owns it. */
  method FromRawFd(d: Descriptor, a: WrapAnswers) returns (r: Result)
    requires d.Leaked()
    modifies d
    ensures d.Leaked() <==> !(a.nonBlocking && a.events)
    ensures !d.Leaked() ==> d.Accounted()
    ensures r.Owned? <==> d.owner.Caller?
    ensures r.Owned? <==> a.nonBlocking && a.events && a.register
    ensures !r.Owned? ==> r == Refused(System)
  {
    if !a.nonBlocking || !a.events {
      r := Refused(System);
    } else {
      d.Wrap();
      d.Register(a.register);
      if a.register {
        d.HandOut();
        r := Owned;
      } else {
        r := Refused(System);
      }
    }
    d.Leave();
  }

  /** The end of `accept`, once the kernel has returned a descriptor and the
      peer's address: the descriptor is accounted for if and only if the address
      is of a known family and no option call fails; otherwise it is leaked. */
  method AcceptOne(e: Endian, family: u16, peer: Storage, a: WrapAnswers) returns (r: Result, d: Descriptor)
    ensures fresh(d) && d.family == family
    ensures d.Accounted() <==> FromRaw(e, peer).Ok? && a.nonBlocking && a.events
    ensures d.Accounted() || d.Leaked()
    ensures r.Owned? <==> d.owner.Caller?
    ensures r == Refused(InvalidAddress) <==> !FromRaw(e, peer).Ok?
  {
    d := new Descriptor(family);
    if FromRaw(e, peer).UnsupportedFamily? {
      r := Refused(InvalidAddress);
    } else {
      r := FromRawFd(d, a);
    }
    d.Leave();
  }
}
