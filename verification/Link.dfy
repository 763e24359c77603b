/** The part of net/sender.h that hides whether the sender talks over TCP or over TLS. */
module SenderLink {
  import opened Bytes
  import opened PartialIo
  import opened Transport

  /** What the environment answers to one connection attempt. */
  datatype Dial = Dial(newFd: Option<nat>, tries: seq<ConnectAnswer>, writable: bool, sound: bool,
                       made: bool, attached: bool, tls: seq<TlsAnswer>)

  /** All that the environment will answer to a link, in the order in which it will be asked. */
  datatype Script = Script(
    secure: bool,
    dials: seq<Dial>,              // connection attempts
    endings: seq<bool>,            // whether recv() finds that the peer has closed the connection
    kernel: seq<Answer>,           // ::send()
    writes: seq<seq<TlsWrite>>)    // SSL_write(), send by send

  function Tail<T>(s: seq<T>): seq<T> {
    if s == [] then [] else s[1..]
  }

  /** The next attempt comes to a connection; an attempt that nothing answers does not. */
  ghost predicate Reaches(x: Script) {
    x.dials != [] &&
    var d := x.dials[0];
    && d.newFd.Some? && d.sound
    && (FirstIs(d.tries, Connected) || (FirstIs(d.tries, InProgress) && d.writable))
    && (x.secure ==> d.made && d.attached && Finishes(d.tls))
  }

  function AfterDial(x: Script): Script {
    x.(dials := Tail(x.dials))
  }

  /** recv() finds that the peer has closed the connection, or nothing answers any more. */
  predicate Gone(x: Script) {
    x.endings == [] || x.endings[0]
  }

  /** The next send lets all of p out. */
  ghost predicate Sends(x: Script, p: Payload) {
    if x.secure then x.writes != [] && Finishes(TlsAnswers(x.writes[0])) else TakesAll(x.kernel, |p|)
  }

  /** How much of p the next send lets out. */
  function Out(x: Script, p: Payload): (k: nat)
    ensures k <= |p|
  {
    if !x.secure then Moved(x.kernel, |p|, true)
    else if x.writes == [] then 0
    else TlsMoved(x.writes[0], |p|)
  }

  function AfterSend(x: Script, p: Payload): Script {
    if x.secure then x.(writes := Tail(x.writes))
    else x.(kernel := x.kernel[Used(x.kernel, |p|, true)..])
  }

  /** sender::send(const void*, size_t): the peer is there, and all of p is let out. */
  ghost predicate Delivers(x: Script, p: Payload) {
    !Gone(x) && Sends(x, p)
  }

  function Cut(x: Script, p: Payload): (k: nat)
    ensures k <= |p|
  {
    if Gone(x) then 0 else Out(x, p)
  }

  function AfterDelivery(x: Script, p: Payload): Script {
    var y := x.(endings := Tail(x.endings));
    if Gone(x) then y else AfterSend(y, p)
  }

  /** What is cut is a proper prefix, and only a payload that is not delivered is cut. */
  lemma CutShort(x: Script, p: Payload)
    ensures if Delivers(x, p) then Cut(x, p) == |p| else CutAt(p, Cut(x, p))
  {
    if x.secure {
      if x.writes != [] {
        TlsMovedAll(x.writes[0], |p|);
      }
    } else {
      TakesAllIffMoved(x.kernel, |p|);
    }
  }

  class Link {
    const secure: bool
    const sock: Socket
    const sslsock: TlsSocket

    /** The environment's answers. */
    var dials: seq<Dial>
    var writes: seq<seq<TlsWrite>>
    var endings: seq<bool>

    ghost function Repr(): set<object> {
      {this, sock, sslsock, sslsock.sock}
    }

    ghost predicate Valid()
      reads Repr()
    {
      && sock != sslsock.sock && sock.Valid() && sslsock.Valid()
      && (secure ==> sslsock.Open() || sslsock.Closed())
      && (Connected() ==> Streams() != [])
    }

    predicate Connected()
      reads Repr()
    {
      if secure then sslsock.sock.fd != -1 else sock.fd != -1
    }

    /** What every connection so far has carried, the present one last. */
    ghost function Streams(): seq<seq<byte>>
      reads Repr()
    {
      if secure then sslsock.streams else sock.streams
    }

    /** How often a connection has been attempted. */
    ghost function Dials(): nat
      reads Repr()
    {
      if secure then sslsock.sock.dials else sock.dials
    }

    ghost function Ahead(): Script
      reads Repr()
    {
      Script(secure, dials, endings, sock.kernel, writes)
    }

    constructor (secure: bool, sock: Socket, sslsock: TlsSocket,
                 dials: seq<Dial>, writes: seq<seq<TlsWrite>>, endings: seq<bool>)
      requires sock != sslsock.sock && sock.Valid() && sslsock.Valid()
      requires sock.fd == -1 && sslsock.Closed()
      ensures Valid() && !Connected() && Ahead() == Script(secure, dials, endings, sock.kernel, writes)
      ensures this.secure == secure && this.sock == sock && this.sslsock == sslsock
    {
      this.secure, this.sock, this.sslsock := secure, sock, sslsock;
      this.dials, this.writes, this.endings := dials, writes, endings;
    }

    /** connect_insecure(), connect_secure(). */
    method Connect() returns (ok: bool)
      requires Valid() && !Connected()
      modifies Repr()
      ensures Valid() && ok == Connected() && Dials() == old(Dials()) + 1
      ensures Streams() == old(Streams()) + if ok then [[]] else []
      ensures (ok <==> Reaches(old(Ahead()))) && Ahead() == AfterDial(old(Ahead()))
    {
      hide FirstIs, Finishes;
      var d := Dial(None, [], false, false, false, false, []);
      if dials != [] {
        d, dials := dials[0], dials[1..];
      }
      if secure {
        ok := sslsock.Connect(d.newFd, d.tries, d.writable, d.sound, d.made, d.attached, d.tls);
      } else {
        ok := sock.Connect(d.newFd, d.tries, d.writable, d.sound);
      }
    }

    /** disconnect_insecure(), disconnect_secure(). */
    method Disconnect()
      requires Valid()
      modifies Repr()
      ensures Valid() && !Connected() && Streams() == old(Streams()) && Dials() == old(Dials())
      ensures Ahead() == old(Ahead())
    {
      if secure {
        sslsock.Close();
      } else {
        sock.Close();
      }
    }

    /** connection_closed_by_peer_insecure(), connection_closed_by_peer_secure(). */
    method ClosedByPeer() returns (closed: bool)
      requires Valid()
      modifies this`endings
      ensures Valid() && closed == Gone(old(Ahead()))
      ensures Ahead() == old(Ahead()).(endings := Tail(old(endings)))
    {
      closed := true;
      if endings != [] {
        closed, endings := endings[0], endings[1..];
      }
    }

    /** send_insecure(), send_secure(): on false, k is where the payload was cut. */
    method Send(data: Payload) returns (ok: bool, ghost k: nat)
      requires Valid() && Connected()
      modifies Repr()
      ensures Valid() && Connected() && Dials() == old(Dials())
      ensures k <= |data| && Streams() == OnLast(old(Streams()), data[..k])
      ensures if ok then k == |data| else CutAt(data, k)
      ensures (ok <==> Sends(old(Ahead()), data)) && k == Out(old(Ahead()), data)
      ensures Ahead() == AfterSend(old(Ahead()), data)
    {
      hide TakesAll, Finishes;
      if secure {
        var w := [];
        if writes != [] {
          w, writes := writes[0], writes[1..];
        }
        NothingFinishes();
        ok, k := sslsock.Send(data, w);
      } else {
        k := Moved(sock.kernel, |data|, true);
        ok := sock.Send(data);
      }
    }

    lemma NothingFinishes()
      ensures !Finishes(TlsAnswers([]))
    {
    }
  }
}
