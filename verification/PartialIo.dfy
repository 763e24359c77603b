/** What a loop of partial writes comes to, on a socket or into a file. */
module PartialIo {

  /** What ::send() or write() answers. */
  datatype Answer =
    | Took(n: nat)                 // at most what was offered
    | Interrupted                  // EINTR
    | WouldBlock(writable: bool)   // EAGAIN; then whether poll() finds it writable in time
    | Broken                       // any other error

  /** Whether the loop goes on; waits tells whether it calls poll() after EAGAIN. */
  predicate GoesOn(a: Answer, waits: bool) {
    a.Took? || a.Interrupted? || (waits && a == WouldBlock(true))
  }

  function Min(a: nat, b: nat): nat {
    if a < b then a else b
  }

  function Left(a: Answer, len: nat): nat {
    if a.Took? then len - Min(a.n, len) else len
  }

  /** How many of len bytes have been moved when the loop ends. */
  function Moved(answers: seq<Answer>, len: nat, waits: bool): (n: nat)
    ensures n <= len
    decreases |answers|
  {
    if len == 0 || answers == [] || !GoesOn(answers[0], waits) then 0
    else len - Left(answers[0], len) + Moved(answers[1..], Left(answers[0], len), waits)
  }

  /** How many answers it has had by then. */
  function Used(answers: seq<Answer>, len: nat, waits: bool): (n: nat)
    ensures n <= |answers|
    decreases |answers|
  {
    if len == 0 || answers == [] then 0
    else if !GoesOn(answers[0], waits) then 1
    else 1 + Used(answers[1..], Left(answers[0], len), waits)
  }

  /** All the room that a list of answers offers. */
  function Room(answers: seq<Answer>): nat {
    if answers == [] then 0
    else (if answers[0].Took? then answers[0].n else 0) + Room(answers[1..])
  }

  lemma {:induction false} RoomGrows(answers: seq<Answer>, m: nat, n: nat)
    requires m <= n <= |answers|
    ensures Room(answers[..m]) <= Room(answers[..n])
    decreases m
  {
    if m > 0 {
      assert answers[..m][1..] == answers[1..][..m - 1] && answers[..n][1..] == answers[1..][..n - 1];
      RoomGrows(answers[1..], m - 1, n - 1);
    }
  }

  /** No answer up to n ends the loop, and the next one, if any, does. */
  predicate EndsAt(answers: seq<Answer>, waits: bool, n: nat) {
    && n <= |answers| && (forall i :: 0 <= i < n ==> GoesOn(answers[i], waits))
    && (n < |answers| ==> !GoesOn(answers[n], waits))
  }

  /** What is moved is what there is room for before an answer that ends the loop. */
  lemma {:induction false} MovedIsRoom(answers: seq<Answer>, len: nat, waits: bool, n: nat)
    requires EndsAt(answers, waits, n)
    ensures Moved(answers, len, waits) == Min(len, Room(answers[..n]))
    decreases |answers|
  {
    if n > 0 {
      var rest := answers[1..];
      assert GoesOn(answers[0], waits);
      assert answers[..n][1..] == rest[..n - 1];
      assert forall i :: 0 <= i < |rest| ==> rest[i] == answers[i + 1];
      MovedIsRoom(rest, Left(answers[0], len), waits, n - 1);
    }
  }

  function FirstEnd(answers: seq<Answer>, waits: bool): (n: nat)
    ensures EndsAt(answers, waits, n)
  {
    if answers == [] || !GoesOn(answers[0], waits) then 0
    else
      var m := FirstEnd(answers[1..], waits);
      assert forall i :: 0 < i < |answers| ==> answers[i] == answers[1..][i - 1];
      m + 1
  }

  /** The first n answers have room for len bytes and none of them ends the loop. */
  predicate RoomWithin(answers: seq<Answer>, len: nat, waits: bool, n: nat) {
    n <= |answers| && len <= Room(answers[..n]) && forall i :: 0 <= i < n ==> GoesOn(answers[i], waits)
  }

  /** Everything is moved if and only if there is room for it before the first answer that ends the loop. */
  lemma AllMoved(answers: seq<Answer>, len: nat, waits: bool)
    ensures Moved(answers, len, waits) == len <==> exists n :: RoomWithin(answers, len, waits, n)
  {
    var m := FirstEnd(answers, waits);
    MovedIsRoom(answers, len, waits, m);
    if Moved(answers, len, waits) == len {
      assert RoomWithin(answers, len, waits, m);
    }
    if n :| RoomWithin(answers, len, waits, n) {
      assert n <= m;
      RoomGrows(answers, n, m);
    }
  }

  /**
   * No more answers are asked for than it takes: before the last of them bytes were missing, and
   * if some still are, it ended the loop or there were no more.
   */
  lemma {:induction false} UsedAreNeeded(answers: seq<Answer>, len: nat, waits: bool)
    ensures var n := Used(answers, len, waits);
      && (n == 0 ==> len == 0 || answers == [])
      && (n > 0 ==> Room(answers[..n - 1]) < len && forall i :: 0 <= i < n - 1 ==> GoesOn(answers[i], waits))
      && (Moved(answers, len, waits) < len && n < |answers| ==> n > 0 && !GoesOn(answers[n - 1], waits))
    decreases |answers|
  {
    if len > 0 && answers != [] && GoesOn(answers[0], waits) {
      var rest, n := answers[1..], Used(answers, len, waits);
      UsedAreNeeded(rest, Left(answers[0], len), waits);
      if n > 1 {
        assert answers[..n - 1][1..] == rest[..n - 2];
        assert forall i :: 0 <= i < |rest| ==> rest[i] == answers[i + 1];
      }
    }
  }
}
