/** net/socket.cpp: reading and printing "ip:port" and "[ip]:port". */
module Address {
  import opened Bytes

  const INET6_ADDRSTRLEN: nat := 46
  const MAX_PORT: nat := 65535

  datatype Endpoint = Endpoint(ip: string, port: nat)

  // ----- What a decimal number is

  predicate IsDigit(c: char) {
    '0' <= c <= '9'
  }

  predicate AllDigits(s: string) {
    forall i :: 0 <= i < |s| ==> IsDigit(s[i])
  }

  function DigitValue(c: char): nat
    requires IsDigit(c)
  {
    c as nat - '0' as nat
  }

  /** The number a string of digits denotes; the empty string denotes 0. */
  function Value(s: string): nat
    requires AllDigits(s)
  {
    if s == "" then 0 else Value(s[..|s| - 1]) * 10 + DigitValue(s[|s| - 1])
  }

  /** Further digits never make a number smaller, so a prefix that is too large settles it. */
  lemma {:induction false} ValueMonotone(s: string, n: nat)
    requires AllDigits(s) && n <= |s|
    ensures Value(s[..n]) <= Value(s)
  {
    if n == |s| {
      assert s[..n] == s;
    } else {
      ValueMonotone(s[..|s| - 1], n);
      assert s[..|s| - 1][..n] == s[..n];
    }
  }

  predicate IsPort(s: string, port: nat) {
    AllDigits(s) && port == Value(s) && 1 <= port <= MAX_PORT
  }

  /** snprintf("%u"). */
  function Decimal(n: nat): string {
    if n < 10 then [('0' as nat + n) as char]
    else Decimal(n / 10) + [('0' as nat + n % 10) as char]
  }

  lemma {:induction false} DecimalValue(n: nat)
    ensures AllDigits(Decimal(n)) && Value(Decimal(n)) == n
  {
    var c := ('0' as nat + n % 10) as char;
    if n < 10 {
      assert Decimal(n)[..0] == "";
    } else {
      DecimalValue(n / 10);
      assert Decimal(n)[..|Decimal(n)| - 1] == Decimal(n / 10);
    }
  }

  // ----- The grammar

  /** h is the text before the last colon, p is the text after it. */
  predicate SplitAtLastColon(address: string, h: string, p: string) {
    address == h + ":" + p && ':' !in p
  }

  /** The ways a host may be written: as it is, or in square brackets. */
  predicate HostText(h: string, ip: string) {
    if h != "" && h[0] == '[' then h == "[" + ip + "]" && ip != ""
    else h == ip && ip != ""
  }

  ghost predicate Denotes(address: string, e: Endpoint) {
    && |e.ip| < INET6_ADDRSTRLEN
    && exists h, p :: SplitAtLastColon(address, h, p) && HostText(h, e.ip) && IsPort(p, e.port)
  }

  lemma ColonAt(address: string, h: string, p: string)
    requires SplitAtLastColon(address, h, p)
    ensures |h| < |address| && address[|h|] == ':' && h == address[..|h|] && p == address[|h| + 1..]
    ensures forall j :: |h| < j < |address| ==> address[j] != ':'
  {
    assert forall j :: |h| < j < |address| ==> address[j] == p[j - |h| - 1];
  }

  lemma SplitIsUnique(address: string, h: string, p: string, h': string, p': string)
    requires SplitAtLastColon(address, h, p) && SplitAtLastColon(address, h', p')
    ensures h == h' && p == p'
  {
    ColonAt(address, h, p);
    ColonAt(address, h', p');
  }

  /** An address denotes at most one endpoint. */
  lemma DenotesOne(address: string, e: Endpoint, f: Endpoint)
    requires Denotes(address, e) && Denotes(address, f)
    ensures e == f
  {
    var h, p :| SplitAtLastColon(address, h, p) && HostText(h, e.ip) && IsPort(p, e.port);
    var h', p' :| SplitAtLastColon(address, h', p') && HostText(h', f.ip) && IsPort(p', f.port);
    SplitIsUnique(address, h, p, h', p');
    if h[0] == '[' {
      assert e.ip == h[1..|h| - 1] == f.ip;
    }
  }

  // ----- parse_port, extract_ip_port

  /** parse_port(): the arithmetic is 32-bit and is shown not to wrap. */
  method ParsePort(s: string) returns (port: Option<nat>)
    ensures port.Some? ==> IsPort(s, port.value)
    ensures port.None? ==> forall n :: !IsPort(s, n)
  {
    var n: uint32 := 0;
    var i := 0;
    while i < |s|
      invariant 0 <= i <= |s| && AllDigits(s[..i]) && n as nat == Value(s[..i]) <= MAX_PORT
    {
      if IsDigit(s[i]) {
        assert s[..i + 1][..i] == s[..i];
        n := n * 10 + DigitValue(s[i]) as uint32;
        assert AllDigits(s[..i + 1]) && n as nat == Value(s[..i + 1]);
      }
      if !IsDigit(s[i]) || n as nat > MAX_PORT {
        if AllDigits(s) {
          ValueMonotone(s, i + 1);
        }
        return None;
      }
      i := i + 1;
    }
    assert s[..i] == s;
    port := if n > 0 then Some(n as nat) else None;
  }

  /** The characters of a caller's array up to the terminating NUL. */
  ghost predicate HoldsString(a: array<char>, s: string)
    reads a
  {
    |s| < a.Length && a[..|s|] == s && a[|s|] == '\0'
  }

  /** The loop that looks for the last colon. */
  method LastColon(address: string) returns (colon: int)
    ensures colon == -1 ==> ':' !in address
    ensures colon != -1 ==> 0 <= colon < |address| && SplitAtLastColon(address, address[..colon], address[colon + 1..])
  {
    colon := -1;
    var i := 0;
    while i < |address|
      invariant 0 <= i <= |address| && -1 <= colon < i
      invariant colon >= 0 ==> address[colon] == ':'
      invariant forall j :: colon < j < i ==> address[j] != ':'
    {
      if address[i] == ':' {
        colon := i;
      }
      i := i + 1;
    }
  }

  /**
   * extract_ip_port(): succeeds exactly on the addresses of the grammar, and then gives the port
   * and fills the caller's array with the host; otherwise the array is left alone.
   */
  method ExtractIpPort(address: string, ip: array<char>) returns (port: Option<nat>)
    requires ip.Length >= INET6_ADDRSTRLEN
    modifies ip
    ensures port.Some? ==> exists host :: Denotes(address, Endpoint(host, port.value)) && HoldsString(ip, host)
    ensures port.None? ==> (forall e :: !Denotes(address, e)) && ip[..] == old(ip[..])
  {
    var colon := LastColon(address);
    if colon < 0 {
      NoColon(address);
      return None;
    }
    ghost var h, p := address[..colon], address[colon + 1..];
    var start, len := 0, colon;
    if len > 0 {
      if address[0] == '[' {
        if len > 2 && address[colon - 1] == ']' {
          start, len := 1, len - 2;
        } else {
          OnlyBy(address, h, p);
          return None;
        }
      }
      ghost var host := address[start..start + len];
      assert HostText(h, host);
      if len < INET6_ADDRSTRLEN {
        port := ParsePort(address[colon + 1..]);
        if port.Some? {
          forall k | 0 <= k < len {
            ip[k] := address[start + k];
          }
          ip[len] := '\0';
          assert Denotes(address, Endpoint(host, port.value)) && HoldsString(ip, host);
          return;
        }
      }
    }
    OnlyBy(address, h, p);
    port := None;
  }

  /** Whatever an address denotes, it does so by its one split. */
  lemma OnlyBy(address: string, h: string, p: string)
    requires SplitAtLastColon(address, h, p)
    ensures forall e :: Denotes(address, e) ==> HostText(h, e.ip) && IsPort(p, e.port) && |e.ip| < INET6_ADDRSTRLEN
  {
    forall e | Denotes(address, e)
      ensures HostText(h, e.ip) && IsPort(p, e.port) && |e.ip| < INET6_ADDRSTRLEN
    {
      var h', p' :| SplitAtLastColon(address, h', p') && HostText(h', e.ip) && IsPort(p', e.port);
      SplitIsUnique(address, h, p, h', p');
    }
  }

  lemma HasColon(address: string, e: Endpoint)
    requires Denotes(address, e)
    ensures ':' in address
  {
    var h, p :| SplitAtLastColon(address, h, p);
    ColonAt(address, h, p);
  }

  lemma NoColon(address: string)
    requires ':' !in address
    ensures forall e :: !Denotes(address, e)
  {
    forall e ensures !Denotes(address, e) {
      if Denotes(address, e) {
        HasColon(address, e);
      }
    }
  }

  // ----- Printing

  function Print4(ip: string, port: nat): string {
    ip + ":" + Decimal(port)
  }

  function Print6(ip: string, port: nat): string {
    "[" + ip + "]:" + Decimal(port)
  }

  /** Copies text into a caller's array, as inet_ntop() and snprintf() do. */
  method Put(a: array<char>, at: nat, text: string)
    requires at + |text| <= a.Length
    modifies a
    ensures a[..] == old(a[..at]) + text + old(a[at + |text|..])
  {
    forall k | 0 <= k < |text| {
      a[at + k] := text[k];
    }
  }

  /**
   * to_string(const struct sockaddr_in&, ...): ip is the text inet_ntop() makes.  Succeeds exactly
   * when text and NUL fit.
   */
  method ToString4(ip: string, port: nat, s: array<char>) returns (ok: bool)
    modifies s
    ensures ok <==> |Print4(ip, port)| < s.Length
    ensures ok ==> HoldsString(s, Print4(ip, port))
  {
    if |ip| >= s.Length {
      return false;  // inet_ntop() fails
    }
    Put(s, 0, ip + "\0");
    var len := |ip|;
    var left := s.Length - len;
    var text := ":" + Decimal(port);
    if |text| < left {
      Put(s, len, text + "\0");
      return true;
    }
    Put(s, len, text[..left - 1] + "\0");  // what snprintf() still writes
    ok := false;
  }

  /** to_string(const struct sockaddr_in6&, ...): the opening bracket is written last. */
  method ToString6(ip: string, port: nat, s: array<char>) returns (ok: bool)
    modifies s
    ensures ok <==> |Print6(ip, port)| < s.Length
    ensures ok ==> HoldsString(s, Print6(ip, port))
  {
    if s.Length <= 1 || |ip| >= s.Length - 1 {
      return false;
    }
    Put(s, 1, ip + "\0");
    var len := 1 + |ip|;
    var left := s.Length - len;
    var text := "]:" + Decimal(port);
    if |text| < left {
      Put(s, len, text + "\0");
      s[0] := '[';
      assert s[..|Print6(ip, port)|] == Print6(ip, port);
      return true;
    }
    Put(s, len, text[..left - 1] + "\0");
    ok := false;
  }

  // ----- Round trips

  lemma PortRoundTrip(port: nat)
    requires 1 <= port <= MAX_PORT
    ensures IsPort(Decimal(port), port) && ':' !in Decimal(port)
  {
    DecimalValue(port);
  }

  /** Printing an IPv4 endpoint and reading it back gives the same endpoint, and no other. */
  lemma RoundTrip4(e: Endpoint)
    requires 1 <= e.port <= MAX_PORT && 0 < |e.ip| < INET6_ADDRSTRLEN && e.ip[0] != '['
    ensures forall f :: Denotes(Print4(e.ip, e.port), f) <==> f == e
  {
    PortRoundTrip(e.port);
    var address := Print4(e.ip, e.port);
    assert SplitAtLastColon(address, e.ip, Decimal(e.port)) && HostText(e.ip, e.ip);
    forall f | Denotes(address, f) ensures f == e {
      DenotesOne(address, e, f);
    }
  }

  /** So does printing an IPv6 endpoint, whatever characters the text between the brackets has. */
  lemma RoundTrip6(e: Endpoint)
    requires 1 <= e.port <= MAX_PORT && 0 < |e.ip| < INET6_ADDRSTRLEN
    ensures forall f :: Denotes(Print6(e.ip, e.port), f) <==> f == e
  {
    PortRoundTrip(e.port);
    var address, h := Print6(e.ip, e.port), "[" + e.ip + "]";
    assert SplitAtLastColon(address, h, Decimal(e.port)) && HostText(h, e.ip);
    forall f | Denotes(address, f) ensures f == e {
      DenotesOne(address, e, f);
    }
  }
}
