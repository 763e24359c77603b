/**
 * net/socket.cpp, net/socket.h, net/ssl/socket.cpp, net/ssl/socket.h: connecting, sending and
 * closing over TCP and over TLS.  What the kernel or the TLS library will answer is a script; a
 * script that has run out answers with a hard error, so a script stands for any finite run.
 */
module Transport {
  import opened Bytes
  import opened PartialIo

  // ----- Plain sockets

  /**
   * Within n answers of ::send() there is room for len bytes, and none of these is an error other
   * than EINTR, and EAGAIN only with a socket that becomes writable in time.
   */
  predicate KernelRoom(kernel: seq<Answer>, len: nat, n: nat) {
    && n <= |kernel| && len <= Room(kernel[..n])
    && forall i :: 0 <= i < n ==> !kernel[i].Broken? && kernel[i] != WouldBlock(false)
  }

  /** The kernel takes all of len bytes. */
  ghost predicate TakesAll(kernel: seq<Answer>, len: nat) {
    exists n :: KernelRoom(kernel, len, n)
  }

  lemma TakesAllIffMoved(kernel: seq<Answer>, len: nat)
    ensures TakesAll(kernel, len) <==> Moved(kernel, len, true) == len
  {
    AllMoved(kernel, len, true);
    assert forall n :: KernelRoom(kernel, len, n) <==> RoomWithin(kernel, len, true, n);
  }

  /** What is sent ends where the kernel's answers before the first hard one end. */
  lemma SentUpToError(kernel: seq<Answer>, len: nat, n: nat)
    requires n <= |kernel| && forall i :: 0 <= i < n ==> !kernel[i].Broken? && kernel[i] != WouldBlock(false)
    requires n < |kernel| ==> kernel[n].Broken? || kernel[n] == WouldBlock(false)
    ensures Moved(kernel, len, true) == Min(len, Room(kernel[..n]))
  {
    MovedIsRoom(kernel, len, true, n);
  }

  /** What is left of a script. */
  predicate Rest(a: seq<Answer>, b: seq<Answer>) {
    |a| <= |b| && a == b[|b| - |a|..]
  }

  lemma RestOfRest(a: seq<Answer>, b: seq<Answer>, c: seq<Answer>)
    requires Rest(a, b) && Rest(b, c)
    ensures Rest(a, c)
  {
  }

  lemma RestIs(a: seq<Answer>, b: seq<Answer>, n: nat)
    ensures Rest(a, a)
    ensures Rest(a, b) && n == |b| - |a| ==> a == b[n..]
  {
  }

  /** A list of byte streams, one a connection, after more bytes on the last one. */
  function OnLast(streams: seq<seq<byte>>, more: seq<byte>): seq<seq<byte>> {
    if streams == [] then streams else streams[|streams| - 1 := streams[|streams| - 1] + more]
  }

  lemma OnLastTwice(streams: seq<seq<byte>>, a: seq<byte>, b: seq<byte>)
    ensures OnLast(OnLast(streams, a), b) == OnLast(streams, a + b)
    ensures OnLast(streams, []) == streams
  {
    if streams != [] {
      var last := streams[|streams| - 1];
      assert last + (a + b) == last + a + b && last + [] == last;
    }
  }

  /** What ::connect() answers. */
  datatype ConnectAnswer = Connected | InProgress | Again | Refused

  /** The first answer that is not EINTR. */
  predicate FirstIs(tries: seq<ConnectAnswer>, a: ConnectAnswer) {
    !a.Again? && exists n :: 0 <= n < |tries| && tries[n] == a && forall i :: 0 <= i < n ==> tries[i].Again?
  }

  lemma FirstAt(tries: seq<ConnectAnswer>, n: nat)
    requires n <= |tries| && forall i :: 0 <= i < n ==> tries[i].Again?
    ensures n < |tries| && !tries[n].Again? ==> forall a :: FirstIs(tries, a) <==> a == tries[n]
    ensures n == |tries| ==> forall a :: !FirstIs(tries, a)
  {
  }

  class Socket {
    var fd: int
    var kernel: seq<Answer>
    /** The bytes the kernel took, connection by connection, and how often connect() was called. */
    ghost var streams: seq<seq<byte>>
    ghost var dials: nat
    /** Descriptors opened and not closed. */
    ghost var held: int

    /** No descriptor is leaked and none is closed twice. */
    ghost predicate Valid()
      reads this
    {
      fd >= -1 && held == if fd == -1 then 0 else 1
    }

    constructor (kernel: seq<Answer>)
      ensures Valid() && fd == -1 && this.kernel == kernel && streams == [] && dials == 0
    {
      this.fd := -1;
      this.kernel := kernel;
      this.streams := [];
      this.dials := 0;
      this.held := 0;
    }

    method Close()
      requires Valid()
      modifies this`fd, this`held
      ensures Valid() && fd == -1
    {
      if fd != -1 {
        held := held - 1;
        fd := -1;
      }
    }

    /** The untimed connect: on EINPROGRESS the descriptor stays open although it returns false. */
    method ConnectOnce(newFd: Option<nat>, tries: seq<ConnectAnswer>) returns (ok: bool)
      requires Valid() && fd == -1
      modifies this`fd, this`held, this`dials
      ensures Valid() && dials == old(dials) + 1
      ensures ok <==> newFd.Some? && FirstIs(tries, Connected)
      ensures if newFd.Some? && (FirstIs(tries, Connected) || FirstIs(tries, InProgress)) then fd == newFd.value
              else fd == -1
    {
      dials := dials + 1;
      if newFd.None? {
        return false;
      }
      fd, held := newFd.value, held + 1;
      var i := 0;
      while i < |tries|
        invariant 0 <= i <= |tries| && forall j :: 0 <= j < i ==> tries[j].Again?
        invariant Valid() && fd == newFd.value && dials == old(dials) + 1
      {
        FirstAt(tries, i);
        match tries[i] {
          case Connected => return true;
          case InProgress => return false;
          case Again => i := i + 1;
          case Refused => break;
        }
      }
      FirstAt(tries, i);
      fd, held := -1, held - 1;
      ok := false;
    }

    /** The timed connect: true exactly when there is an open descriptor afterwards. */
    method Connect(newFd: Option<nat>, tries: seq<ConnectAnswer>, writable: bool, sound: bool)
      returns (ok: bool)
      requires Valid() && fd == -1
      modifies this`fd, this`held, this`dials, this`streams
      ensures Valid() && dials == old(dials) + 1
      ensures streams == old(streams) + if ok then [[]] else []
      ensures ok <==> fd != -1
      ensures ok <==> && newFd.Some? && sound
                      && (FirstIs(tries, Connected) || (FirstIs(tries, InProgress) && writable))
    {
      FirstUnique(tries);
      ok := ConnectOnce(newFd, tries);
      if ok {
        if !sound {
          Close();
          ok := false;
        }
      } else if fd != -1 {
        if writable && sound {
          ok := true;
        } else {
          Close();
        }
      }
      if ok {
        streams := streams + [[]];
      }
    }

    lemma FirstUnique(tries: seq<ConnectAnswer>)
      ensures !(FirstIs(tries, Connected) && FirstIs(tries, InProgress))
    {
    }

    /** The untimed send: retried while interrupted. */
    method SendSome(data: seq<byte>) returns (a: Answer)
      modifies this`kernel, this`streams
      ensures !a.Interrupted?
      ensures !a.Broken? ==> |kernel| < |old(kernel)|
      ensures a.Took? ==> a.n <= |data| && streams == OnLast(old(streams), data[..a.n])
      ensures !a.Took? ==> streams == old(streams)
      ensures Rest(kernel, old(kernel))
      ensures data != [] && GoesOn(a, true) ==>
                var n := if a.Took? then a.n else 0;
                && Moved(old(kernel), |data|, true) == n + Moved(kernel, |data| - n, true)
                && Used(old(kernel), |data|, true) == |old(kernel)| - |kernel| + Used(kernel, |data| - n, true)
      ensures data != [] && !GoesOn(a, true) ==>
                && Moved(old(kernel), |data|, true) == 0
                && Used(old(kernel), |data|, true) == |old(kernel)| - |kernel|
    {
      while kernel != []
        invariant |kernel| <= |old(kernel)| && streams == old(streams)
        invariant Rest(kernel, old(kernel))
        invariant data != [] ==> Moved(old(kernel), |data|, true) == Moved(kernel, |data|, true)
        invariant data != [] ==>
                    Used(old(kernel), |data|, true) == |old(kernel)| - |kernel| + Used(kernel, |data|, true)
        decreases |kernel|
      {
        a, kernel := kernel[0], kernel[1..];
        if a.Took? {
          a := Took(Min(a.n, |data|));
          streams := OnLast(streams, data[..a.n]);
          return;
        } else if !a.Interrupted? {
          return;
        }
      }
      a := Broken;
    }

    /**
     * The timed send: true means that every byte went out, false that a proper prefix did; which
     * of them is settled by the kernel's answers, of which no more are asked for than it takes.
     */
    method Send(data: seq<byte>) returns (ok: bool)
      modifies this`kernel, this`streams
      ensures ok <==> TakesAll(old(kernel), |data|)
      ensures ok <==> Moved(old(kernel), |data|, true) == |data|
      ensures streams == OnLast(old(streams), data[..Moved(old(kernel), |data|, true)])
      ensures kernel == old(kernel)[Used(old(kernel), |data|, true)..]
    {
      hide TakesAll, Moved, Used, OnLast, GoesOn, Rest;
      TakesAllIffMoved(kernel, |data|);
      OnLastTwice(streams, [], []);
      NothingLeft(kernel);
      RestIs(kernel, kernel, 0);
      ghost var total, used := Moved(kernel, |data|, true), Used(kernel, |data|, true);
      var b := data;
      while b != []
        invariant |b| <= |data| && b == data[|data| - |b|..]
        invariant streams == OnLast(old(streams), data[..|data| - |b|])
        invariant total == |data| - |b| + Moved(kernel, |b|, true)
        invariant Rest(kernel, old(kernel))
        invariant used == |old(kernel)| - |kernel| + Used(kernel, |b|, true)
        decreases |kernel|
      {
        ghost var at, before := |data| - |b|, kernel;
        var a := SendSome(b);
        WhoGoesOn(a);
        RestOfRest(kernel, before, old(kernel));
        if a.Took? {
          OnLastTwice(old(streams), data[..at], b[..a.n]);
          assert data[..at] + b[..a.n] == data[..at + a.n];
          b := b[a.n..];
        } else if a.Broken? || (a.WouldBlock? && !a.writable) {
          RestIs(kernel, old(kernel), used);
          return false;
        }
      }
      NothingLeft(kernel);
      RestIs(kernel, old(kernel), used);
      assert data[..|data|] == data;
      ok := true;
    }

    lemma NothingLeft(answers: seq<Answer>)
      ensures Moved(answers, 0, true) == 0 && Used(answers, 0, true) == 0
    {
    }

    lemma WhoGoesOn(a: Answer)
      requires !a.Interrupted?
      ensures GoesOn(a, true) <==> a.Took? || (a.WouldBlock? && a.writable)
    {
    }
  }

  // ----- TLS

  /** What SSL_write() or SSL_do_handshake() answers, with the wait for the socket where one follows. */
  datatype TlsAnswer = Finished | Shut | WantRead(ready: bool) | WantWrite(ready: bool) | Signal | Fatal

  /** What SSL_write() answers, and how much of the payload it lets out without finishing. */
  datatype TlsWrite = TlsWrite(answer: TlsAnswer, out: nat)

  /** The library wants to be called again, and can be. */
  predicate Retryable(a: TlsAnswer) {
    a == WantRead(true) || a == WantWrite(true) || a.Signal?
  }

  /**
   * The library finishes: before that it was interrupted, or wanted to read or to write and the
   * socket became ready in time.
   */
  predicate Finishes(tls: seq<TlsAnswer>) {
    exists n :: 0 <= n < |tls| && tls[n].Finished? &&
      forall i :: 0 <= i < n ==> tls[i] in {WantRead(true), WantWrite(true), Signal}
  }

  lemma FinishesAt(tls: seq<TlsAnswer>, n: nat)
    requires n <= |tls| && forall i :: 0 <= i < n ==> Retryable(tls[i])
    ensures n < |tls| && tls[n].Finished? ==> Finishes(tls)
    ensures n < |tls| && !tls[n].Finished? && !Retryable(tls[n]) ==> !Finishes(tls)
    ensures n == |tls| ==> !Finishes(tls)
  {
  }

  function TlsAnswers(writes: seq<TlsWrite>): (tls: seq<TlsAnswer>)
    ensures |tls| == |writes| && forall i :: 0 <= i < |tls| ==> tls[i] == writes[i].answer
  {
    seq(|writes|, i requires 0 <= i < |writes| => writes[i].answer)
  }

  /** How much one SSL_write() lets out; all of it exactly when it finishes. */
  function LetOut(w: TlsWrite, len: nat): (n: nat)
    ensures n <= len
  {
    if w.answer.Finished? then len else if w.out < len then w.out else if len == 0 then 0 else len - 1
  }

  /** How much of len bytes is out when the retry loop ends. */
  function TlsMoved(writes: seq<TlsWrite>, len: nat): (n: nat)
    ensures n <= len
    decreases |writes|
  {
    if writes == [] then 0
    else
      var n := LetOut(writes[0], len);
      if Retryable(writes[0].answer) then n + TlsMoved(writes[1..], len - n) else n
  }

  /** All of it is out exactly when the library finishes, unless there is nothing to let out. */
  lemma {:induction false} TlsMovedAll(writes: seq<TlsWrite>, len: nat)
    ensures if Finishes(TlsAnswers(writes)) then TlsMoved(writes, len) == len
            else TlsMoved(writes, len) < len || len == 0
    decreases |writes|
  {
    if writes == [] || !Retryable(writes[0].answer) {
      FinishesAt(TlsAnswers(writes), 0);
    } else {
      var tls, rest := TlsAnswers(writes), writes[1..];
      TlsMovedAll(rest, len - LetOut(writes[0], len));
      assert TlsAnswers(rest) == tls[1..] && Retryable(tls[0]);
      FinishesLater(tls);
    }
  }

  lemma FinishesLater(tls: seq<TlsAnswer>)
    requires tls != [] && Retryable(tls[0])
    ensures Finishes(tls) <==> Finishes(tls[1..])
  {
    if n :| 0 <= n < |tls| && tls[n].Finished?
            && forall i :: 0 <= i < n ==> tls[i] in {WantRead(true), WantWrite(true), Signal} {
      assert tls[1..][n - 1].Finished?;
    }
    if n :| 0 <= n < |tls[1..]| && tls[1..][n].Finished?
            && forall i :: 0 <= i < n ==> tls[1..][i] in {WantRead(true), WantWrite(true), Signal} {
      assert tls[n + 1].Finished?;
      assert forall i :: 0 < i < n + 1 ==> tls[i] == tls[1..][i - 1];
    }
  }

  class TlsSocket {
    const sock: Socket
    /** Whether there is a TLS object (_M_ssl is not null). */
    var ssl: bool
    /** The plain text that has got out, connection by connection. */
    ghost var streams: seq<seq<byte>>
    /** TLS objects made and not freed. */
    ghost var held: int

    ghost predicate Valid()
      reads this, sock
    {
      sock.Valid() && held == if ssl then 1 else 0
    }

    /** Descriptor and TLS object are there together. */
    ghost predicate Open()
      reads this, sock
    {
      sock.fd != -1 && ssl
    }

    ghost predicate Closed()
      reads this, sock
    {
      sock.fd == -1 && !ssl
    }

    constructor (sock: Socket)
      requires sock.Valid()
      ensures Valid() && this.sock == sock && !ssl && streams == []
    {
      this.sock := sock;
      this.ssl := false;
      this.streams := [];
      this.held := 0;
    }

    method Close()
      requires Valid()
      modifies this`ssl, this`held, sock`fd, sock`held
      ensures Valid() && Closed()
    {
      sock.Close();
      if ssl {
        held := held - 1;
        ssl := false;
      }
    }

    /** The retry loop around SSL_do_handshake(). */
    static method Retry(tls: seq<TlsAnswer>) returns (ok: bool)
      ensures ok <==> Finishes(tls)
    {
      var i := 0;
      while i < |tls|
        invariant 0 <= i <= |tls| && forall j :: 0 <= j < i ==> Retryable(tls[j])
      {
        FinishesAt(tls, i);
        match tls[i] {
          case Finished => return true;
          case Shut => return false;
          case WantRead(ready) => if !ready { return false; }
          case WantWrite(ready) => if !ready { return false; }
          case Signal =>
          case Fatal => return false;
        }
        i := i + 1;
      }
      FinishesAt(tls, i);
      ok := false;
    }

    method Handshake(made: bool, attached: bool, tls: seq<TlsAnswer>) returns (ok: bool)
      requires Valid() && !ssl
      modifies this`ssl, this`held
      ensures Valid() && ok == ssl
      ensures ok <==> made && attached && Finishes(tls)
    {
      if made {
        ssl, held := true, held + 1;
        if attached {
          ok := Retry(tls);
          if ok {
            return;
          }
        }
        held := held - 1;
        ssl := false;
      }
      ok := false;
    }

    /** From closed, connect leaves either both descriptor and TLS object, or neither. */
    method Connect(newFd: Option<nat>, tries: seq<ConnectAnswer>, writable: bool, sound: bool,
                   made: bool, attached: bool, tls: seq<TlsAnswer>)
      returns (ok: bool)
      requires Valid() && Closed()
      modifies this, sock`fd, sock`held, sock`dials, sock`streams
      ensures Valid() && sock.dials == old(sock.dials) + 1
      ensures streams == old(streams) + if ok then [[]] else []
      ensures if ok then Open() else Closed()
      ensures ok <==> && newFd.Some? && sound && made && attached && Finishes(tls)
                      && (FirstIs(tries, Connected) || (FirstIs(tries, InProgress) && writable))
    {
      ok := sock.Connect(newFd, tries, writable, sound);
      if ok {
        ok := Handshake(made, attached, tls);
        if ok {
          streams := streams + [[]];
        } else {
          sock.Close();
        }
      }
    }

    /** One SSL_write() of what is left of a payload. */
    method Write(left: seq<byte>, w: TlsWrite) returns (n: nat)
      modifies this`streams
      ensures n == LetOut(w, |left|) && streams == OnLast(old(streams), left[..n])
      ensures if w.answer.Finished? then n == |left| else CutAt(left, n)
    {
      n := LetOut(w, |left|);
      streams := OnLast(streams, left[..n]);
    }

    /**
     * The timed send: true, exactly when the library finishes in time, means that every byte went
     * out, false that a proper prefix did.
     */
    method Send(data: seq<byte>, writes: seq<TlsWrite>) returns (ok: bool, ghost n: nat)
      modifies this`streams
      ensures ok <==> Finishes(TlsAnswers(writes))
      ensures n == TlsMoved(writes, |data|) && streams == OnLast(old(streams), data[..n])
      ensures if ok then n == |data| else CutAt(data, n)
    {
      OnLastTwice(streams, [], []);
      n := 0;
      var left, i := data, 0;
      while i < |writes|
        invariant 0 <= i <= |writes| && forall j :: 0 <= j < i ==> Retryable(writes[j].answer)
        invariant CutAt(data, n) && left == data[n..] && streams == OnLast(old(streams), data[..n])
        invariant TlsMoved(writes, |data|) == n + TlsMoved(writes[i..], |left|)
      {
        assert writes[i..][1..] == writes[i + 1..];
        FinishesAt(TlsAnswers(writes), i);
        var out := Write(left, writes[i]);
        OnLastTwice(old(streams), data[..n], left[..out]);
        assert data[..n] + left[..out] == data[..n + out];
        n, left := n + out, left[out..];
        match writes[i].answer {
          case Finished => return true, n;
          case Shut => return false, n;
          case WantRead(ready) => if !ready { return false, n; }
          case WantWrite(ready) => if !ready { return false, n; }
          case Signal =>
          case Fatal => return false, n;
        }
        i := i + 1;
      }
      FinishesAt(TlsAnswers(writes), i);
      ok := false;
    }
  }
}
