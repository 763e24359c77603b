/**
 * The spill directory: buffer::save() (net/buffer.cpp) and the file names of save_buffer()
 * (net/sender.cpp).  The directory is a map from the names of its regular files to their bytes.
 */
module Spool {
  import opened Bytes
  import opened Address
  import opened PartialIo

  type Directory = map<string, Payload>

  // ----- Writing one file

  /** Within n answers of write() there is room for len bytes, and none of them is an error but EINTR. */
  predicate WriteRoom(writes: seq<Answer>, len: nat, n: nat) {
    && n <= |writes| && len <= Room(writes[..n])
    && forall i :: 0 <= i < n ==> writes[i].Took? || writes[i].Interrupted?
  }

  /** All of len bytes are written; a script that has run out answers with an error. */
  ghost predicate Completes(writes: seq<Answer>, len: nat) {
    exists n :: WriteRoom(writes, len, n)
  }

  lemma CompletesIffMoved(writes: seq<Answer>, len: nat)
    ensures Completes(writes, len) <==> Moved(writes, len, false) == len
  {
    AllMoved(writes, len, false);
    assert forall n :: WriteRoom(writes, len, n) <==> RoomWithin(writes, len, false, n);
  }

  /**
   * buffer::save(): after success the file holds exactly the buffer's bytes, whatever short
   * writes and interrupts there were; after a failed write the file is gone.
   */
  method Save(dir: Directory, name: string, data: Payload, canOpen: bool, writes: seq<Answer>)
    returns (ok: bool, after: Directory)
    ensures ok <==> canOpen && Completes(writes, |data|)
    ensures ok ==> after == dir[name := data]
    ensures !ok ==> after == if canOpen then dir - {name} else dir
  {
    CompletesIffMoved(writes, |data|);
    if !canOpen {
      return false, dir;
    }
    after := dir[name := []];  // O_CREAT | O_TRUNC
    var written, i := 0, 0;
    while written < |data|
      invariant 0 <= i <= |writes| && 0 <= written <= |data|
      invariant after == dir[name := data[..written]]
      invariant Moved(writes, |data|, false) == written + Moved(writes[i..], |data| - written, false)
      decreases |writes| - i
    {
      if i == |writes| || writes[i].Broken? || writes[i].WouldBlock? {
        after := after - {name};
        assert after == dir - {name};
        return false, after;
      }
      assert writes[i..][1..] == writes[i + 1..];
      if writes[i].Took? {
        var n := if writes[i].n < |data| - written then writes[i].n else |data| - written;
        assert data[..written] + data[written..written + n] == data[..written + n];
        after := after[name := after[name] + data[written..written + n]];
        written := written + n;
      }
      i := i + 1;
    }
    assert data[..written] == data;
    ok := true;
  }

  // ----- File names

  /** "%06u". */
  function Padded(s: string): string
    decreases 6 - |s|
  {
    if |s| >= 6 then s else Padded("0" + s)
  }

  lemma {:induction false} ZeroInFront(s: string)
    requires AllDigits(s)
    ensures AllDigits("0" + s) && Value("0" + s) == Value(s)
  {
    var t := "0" + s;
    if s == "" {
      assert t[..0] == "";
    } else {
      ZeroInFront(s[..|s| - 1]);
      assert t[..|t| - 1] == "0" + s[..|s| - 1];
    }
  }

  lemma {:induction false} PaddedValue(s: string)
    requires AllDigits(s)
    ensures AllDigits(Padded(s)) && Value(Padded(s)) == Value(s)
    decreases 6 - |s|
  {
    if |s| < 6 {
      ZeroInFront(s);
      PaddedValue("0" + s);
    }
  }

  /** The file name for a timestamp and a counter, within the directory. */
  function Name(stamp: string, c: nat): string {
    stamp + "_" + Padded(Decimal(c))
  }

  /** Different counters give different names. */
  lemma NameInjective(stamp: string, c: nat, d: nat)
    requires Name(stamp, c) == Name(stamp, d)
    ensures c == d
  {
    var prefix := stamp + "_";
    assert Padded(Decimal(c)) == Name(stamp, c)[|prefix|..] == Padded(Decimal(d));
    DecimalValue(c);
    DecimalValue(d);
    PaddedValue(Decimal(c));
    PaddedValue(Decimal(d));
  }

  /** The first counter from c on whose name is not in use. */
  predicate IsFirstFree(dir: Directory, stamp: string, c: nat, r: nat) {
    && c <= r && Name(stamp, r) !in dir
    && forall j :: c <= j < r ==> Name(stamp, j) in dir
  }

  lemma NameOnce(stamp: string, c: nat)
    ensures forall d :: Name(stamp, d) == Name(stamp, c) ==> d == c
  {
    forall d | Name(stamp, d) == Name(stamp, c) ensures d == c {
      NameInjective(stamp, d, c);
    }
  }

  /** n is the name for some counter from c on. */
  ghost predicate NamedFrom(n: string, stamp: string, c: nat) {
    exists j: nat :: c <= j && n == Name(stamp, j)
  }

  /** The names in use for counters from c on. */
  ghost function Occupied(dir: Directory, stamp: string, c: nat): set<string> {
    set n | n in dir && NamedFrom(n, stamp, c)
  }

  lemma OccupiedNext(dir: Directory, stamp: string, c: nat)
    ensures Occupied(dir, stamp, c + 1) == Occupied(dir, stamp, c) - {Name(stamp, c)}
    ensures Name(stamp, c) in dir ==> |Occupied(dir, stamp, c + 1)| == |Occupied(dir, stamp, c)| - 1
  {
    hide Name;
    var name := Name(stamp, c);
    NameOnce(stamp, c);
    forall n ensures NamedFrom(n, stamp, c + 1) <==> NamedFrom(n, stamp, c) && n != name {
      if NamedFrom(n, stamp, c) {
        var j: nat :| c <= j && n == Name(stamp, j);
        assert n != name ==> j != c;
      }
    }
    assert NamedFrom(name, stamp, c);
  }

  /** There is always one, at most as far away as there are names in use from the counter on. */
  ghost function FirstFree(dir: Directory, stamp: string, c: nat): (r: nat)
    ensures IsFirstFree(dir, stamp, c, r) && r <= c + |Occupied(dir, stamp, c)|
    decreases |Occupied(dir, stamp, c)|
  {
    if Name(stamp, c) !in dir then c
    else
      OccupiedNext(dir, stamp, c);
      FirstFree(dir, stamp, c + 1)
  }

  lemma OccupiedFew(dir: Directory, stamp: string, c: nat)
    ensures |Occupied(dir, stamp, c)| <= |dir|
  {
    FewInMap(dir, Occupied(dir, stamp, c));
  }

  lemma {:induction false} FewInMap(dir: Directory, names: set<string>)
    requires forall n :: n in names ==> n in dir
    ensures |names| <= |dir|
    decreases |names|
  {
    if names != {} {
      var n :| n in names;
      FewInMap(dir - {n}, names - {n});
    }
  }

  lemma FirstFreeIsLeast(dir: Directory, stamp: string, c: nat, r: nat, other: nat)
    requires IsFirstFree(dir, stamp, c, r) && c <= other && Name(stamp, other) !in dir
    ensures r <= other
  {
  }

  lemma FirstFreeUnique(dir: Directory, stamp: string, c: nat, r: nat)
    requires IsFirstFree(dir, stamp, c, r)
    ensures r == FirstFree(dir, stamp, c)
  {
    hide Name, FirstFree;
    FirstFreeIsLeast(dir, stamp, c, r, FirstFree(dir, stamp, c));
    FirstFreeIsLeast(dir, stamp, c, FirstFree(dir, stamp, c), r);
  }

  /**
   * The search in save_buffer(): it ends, after at most as many steps as names from the counter on
   * are in use, at the first free name, and the counter goes on after it.
   */
  method FreeName(dir: Directory, stamp: string, count: nat) returns (name: string, after: nat)
    ensures name !in dir && name == Name(stamp, FirstFree(dir, stamp, count))
    ensures after == FirstFree(dir, stamp, count) + 1 <= count + |Occupied(dir, stamp, count)| + 1
  {
    hide Name, FirstFree;
    var cnt := count;
    name := Name(stamp, cnt);
    cnt := cnt + 1;
    while name in dir
      invariant count < cnt <= FirstFree(dir, stamp, count) + 1 && name == Name(stamp, cnt - 1)
      invariant forall j :: count <= j < cnt - 1 ==> Name(stamp, j) in dir
      decreases FirstFree(dir, stamp, count) + 1 - cnt
    {
      name := Name(stamp, cnt);
      cnt := cnt + 1;
    }
    FirstFreeUnique(dir, stamp, count, cnt - 1);
    after := cnt;
  }

  /** save_buffer(): no file that is there is touched, whether the save succeeds or not. */
  method SaveBuffer(dir: Directory, stamp: string, count: nat, data: Payload, canOpen: bool, writes: seq<Answer>)
    returns (ok: bool, next: nat, after: Directory)
    ensures next == FirstFree(dir, stamp, count) + 1 && Name(stamp, next - 1) !in dir
    ensures ok <==> canOpen && Completes(writes, |data|)
    ensures after == if ok then dir[Name(stamp, next - 1) := data] else dir
  {
    hide Name, FirstFree, Completes;
    var name;
    name, next := FreeName(dir, stamp, count);
    ok, after := Save(dir, name, data, canOpen, writes);
    assert dir - {name} == dir;
  }

  /** One write that takes everything completes. */
  lemma OneWrite(len: nat)
    ensures Completes([Took(len)], len)
  {
    assert WriteRoom([Took(len)], len, 1);
  }

  // ----- One spill that nobody interferes with

  /** The counters under which the payloads are written. */
  ghost function Counters(dir: Directory, stamp: string, ps: seq<Payload>, count: nat): seq<nat>
    decreases |ps|
  {
    if ps == [] then []
    else
      var c := FirstFree(dir, stamp, count);
      [c] + Counters(dir[Name(stamp, c) := ps[0]], stamp, ps[1..], c + 1)
  }

  /** The directory afterwards. */
  ghost function Spilled(dir: Directory, stamp: string, ps: seq<Payload>, count: nat): Directory
    decreases |ps|
  {
    if ps == [] then dir
    else
      var c := FirstFree(dir, stamp, count);
      Spilled(dir[Name(stamp, c) := ps[0]], stamp, ps[1..], c + 1)
  }

  lemma SpilledStep(dir: Directory, stamp: string, ps: seq<Payload>, count: nat)
    ensures Spilled(dir, stamp, [], count) == dir
    ensures ps != [] ==> var c := FirstFree(dir, stamp, count);
              Spilled(dir, stamp, ps, count) == Spilled(dir[Name(stamp, c) := ps[0]], stamp, ps[1..], c + 1)
  {
  }

  lemma {:induction false} CountersFresh(dir: Directory, stamp: string, ps: seq<Payload>, count: nat)
    ensures var cs := Counters(dir, stamp, ps, count);
      && |cs| == |ps|
      && (forall i :: 0 <= i < |cs| ==> count <= cs[i] && Name(stamp, cs[i]) !in dir)
      && (forall i, j :: 0 <= i < j < |cs| ==> cs[i] < cs[j])
    decreases |ps|
  {
    hide Name, FirstFree;
    if ps != [] {
      var c := FirstFree(dir, stamp, count);
      CountersFresh(dir[Name(stamp, c) := ps[0]], stamp, ps[1..], c + 1);
    }
  }

  lemma {:induction false} OldFilesStay(dir: Directory, stamp: string, ps: seq<Payload>, count: nat)
    ensures forall n :: n in dir ==> n in Spilled(dir, stamp, ps, count) && Spilled(dir, stamp, ps, count)[n] == dir[n]
    decreases |ps|
  {
    hide Name, FirstFree;
    if ps != [] {
      var c := FirstFree(dir, stamp, count);
      OldFilesStay(dir[Name(stamp, c) := ps[0]], stamp, ps[1..], c + 1);
    }
  }

  lemma {:induction false} SpilledContents(dir: Directory, stamp: string, ps: seq<Payload>, count: nat, i: nat)
    requires i < |ps| && |Counters(dir, stamp, ps, count)| == |ps|
    ensures var name, after := Name(stamp, Counters(dir, stamp, ps, count)[i]), Spilled(dir, stamp, ps, count);
            name in after && after[name] == ps[i]
    decreases i
  {
    hide Name, FirstFree;
    var c := FirstFree(dir, stamp, count);
    var dir1 := dir[Name(stamp, c) := ps[0]];
    if i == 0 {
      OldFilesStay(dir1, stamp, ps[1..], c + 1);
    } else {
      SpilledContents(dir1, stamp, ps[1..], c + 1, i - 1);
    }
  }

  lemma OneMoreFile(dir: Directory, stamp: string, count: nat, p: Payload)
    ensures var name := Name(stamp, FirstFree(dir, stamp, count)); |dir[name := p]| == |dir| + 1
  {
    hide Name;
    var name := Name(stamp, FirstFree(dir, stamp, count));
    assert dir[name := p].Keys == dir.Keys + {name} && name !in dir.Keys;
  }

  lemma {:induction false} NothingElse(dir: Directory, stamp: string, ps: seq<Payload>, count: nat)
    ensures |Spilled(dir, stamp, ps, count)| == |dir| + |ps|
    decreases |ps|
  {
    hide Name, FirstFree, Spilled, IsFirstFree;
    SpilledStep(dir, stamp, ps, count);
    if ps != [] {
      var c := FirstFree(dir, stamp, count);
      OneMoreFile(dir, stamp, count, ps[0]);
      NothingElse(dir[Name(stamp, c) := ps[0]], stamp, ps[1..], c + 1);
    }
  }

  /**
   * Spill naming: the payloads go, in order, to distinct names with strictly increasing counters;
   * none of the names was in use, every old file stays as it was, and nothing else appears.
   */
  lemma SpillNaming(dir: Directory, stamp: string, ps: seq<Payload>, count: nat)
    ensures var cs, after := Counters(dir, stamp, ps, count), Spilled(dir, stamp, ps, count);
      && |cs| == |ps|
      && (forall i :: 0 <= i < |cs| ==> count <= cs[i] && Name(stamp, cs[i]) !in dir)
      && (forall i, j :: 0 <= i < j < |cs| ==> cs[i] < cs[j])
      && (forall i :: 0 <= i < |cs| ==> Name(stamp, cs[i]) in after && after[Name(stamp, cs[i])] == ps[i])
      && (forall n :: n in dir ==> n in after && after[n] == dir[n])
      && |after| == |dir| + |ps|
  {
    hide Name, FirstFree, Counters, Spilled;
    CountersFresh(dir, stamp, ps, count);
    OldFilesStay(dir, stamp, ps, count);
    var cs, after := Counters(dir, stamp, ps, count), Spilled(dir, stamp, ps, count);
    forall i | 0 <= i < |cs| ensures Name(stamp, cs[i]) in after && after[Name(stamp, cs[i])] == ps[i] {
      SpilledContents(dir, stamp, ps, count, i);
    }
    NothingElse(dir, stamp, ps, count);
  }

  /**
   * Starting from 0 the counter never passes the number of files there were plus those written,
   * so an unsigned counter does not wrap before there are 2^32 files.
   */
  lemma {:induction false} CountersBounded(dir: Directory, stamp: string, ps: seq<Payload>, count: nat)
    requires forall j :: 0 <= j < count ==> Name(stamp, j) in dir
    ensures var cs := Counters(dir, stamp, ps, count);
            |cs| == |ps| && forall i :: 0 <= i < |cs| ==> cs[i] <= |dir| + i
    decreases |ps|
  {
    hide Name, FirstFree;
    if ps != [] {
      var c := FirstFree(dir, stamp, count);
      var name := Name(stamp, c);
      var dir1 := dir[name := ps[0]];
      FirstFreeUnique(dir, stamp, 0, c);
      OccupiedFew(dir, stamp, 0);
      assert forall j :: 0 <= j < c + 1 ==> Name(stamp, j) in dir1;
      OneMoreFile(dir, stamp, count, ps[0]);
      CountersBounded(dir1, stamp, ps[1..], c + 1);
    }
  }
}
