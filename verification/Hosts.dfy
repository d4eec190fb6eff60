/** Host names and addresses, as internal/domain/route.go normalizes and validates them. */
module Hosts {
  import opened Results
  import opened Text

  // ---- IP address literals (net.ParseIP, which rejects zones) ----

  predicate IsDigit(c: char) { '0' <= c <= '9' }

  predicate IsHexDigit(c: char) { IsDigit(c) || 'a' <= c <= 'f' || 'A' <= c <= 'F' }

  function Decimal(s: string): int
    requires forall c :: c in s ==> IsDigit(c)
  {
    if s == "" then 0 else 10 * Decimal(s[..|s| - 1]) + (s[|s| - 1] as int - '0' as int)
  }

  predicate IsOctet(s: string) {
    && 1 <= |s| <= 3
    && (forall c :: c in s ==> IsDigit(c))
    && (|s| > 1 ==> s[0] != '0')
    && Decimal(s) <= 255
  }

  predicate IsIPv4(s: string) {
    var fields := Split(s, '.');
    |fields| == 4 && forall f :: f in fields ==> IsOctet(f)
  }

  predicate IsHexGroup(s: string) {
    1 <= |s| <= 4 && forall c :: c in s ==> IsHexDigit(c)
  }

  /** The number of 16-bit groups in a colon-separated list; a trailing IPv4 address counts as two. */
  function Groups(s: string, allowIPv4: bool): Option<nat>
    decreases |s|
  {
    var i := IndexOf(s, ':');
    if i == |s| then
      if IsHexGroup(s) then Some(1) else if allowIPv4 && IsIPv4(s) then Some(2) else None
    else if !IsHexGroup(s[..i]) then None
    else
      match Groups(s[i + 1..], allowIPv4)
      case Some(n) => Some(n + 1)
      case None => None
  }

  predicate EllipsisAt(s: string, i: nat)
    requires i + 2 <= |s|
  {
    && s[i] == ':' && s[i + 1] == ':'
    && var left := if i == 0 then Some(0) else Groups(s[..i], false);
       var right := if i + 2 == |s| then Some(0) else Groups(s[i + 2..], true);
       left.Some? && right.Some? && left.value + right.value <= 7
  }

  predicate IsIPv6(s: string) {
    Groups(s, true) == Some(8) || exists i: nat | i + 2 <= |s| :: EllipsisAt(s, i)
  }

  predicate ParsesAsIP(s: string) { IsIPv4(s) || IsIPv6(s) }

  // ---- Host names ----

  /** The pattern is case-insensitive under Unicode folding, which adds the long s and the Kelvin sign. */
  predicate IsAlnum(c: char) {
    'a' <= c <= 'z' || 'A' <= c <= 'Z' || IsDigit(c) || c == '\U{017F}' || c == '\U{212A}'
  }

  predicate IsLabel(s: string) {
    && 1 <= |s| <= 63
    && IsAlnum(s[0]) && IsAlnum(s[|s| - 1])
    && forall c :: c in s ==> IsAlnum(c) || c == '-'
  }

  predicate IsHostname(s: string) {
    forall part :: part in Split(s, '.') ==> IsLabel(part)
  }

  /** The length of s in UTF-8, which is what Go's len measures. */
  function ByteLen(s: string): nat {
    if s == "" then 0
    else
      var c := s[0] as int;
      (if c < 0x80 then 1 else if c < 0x800 then 2 else if c < 0x10000 then 3 else 4) + ByteLen(s[1..])
  }

  predicate ValidHost(s: string) {
    ParsesAsIP(s) || (ByteLen(s) <= 253 && IsHostname(s))
  }

  /** net.SplitHostPort, keeping only the host. */
  function SplitHost(s: string): (host: Option<string>)
    ensures host.Some? ==> forall c :: c in host.value ==> c in s
  {
    var i := LastIndexOf(s, ':');
    if i == |s| then None
    else if s[0] == '[' then
      var end := IndexOf(s, ']');
      if end + 1 != i then None
      else if '[' in s[1..] || ']' in s[end + 1..] then None
      else Some(s[1..end])
    else if ':' in s[..i] || '[' in s || ']' in s then None
    else Some(s[..i])
  }

  /** The value without spaces around it and without a port, before its final dot is cut off. */
  function HostPart(value: string): string {
    var v := TrimSpace(ToLower(value));
    match SplitHost(v)
    case Some(host) => host
    case None => v
  }

  function NormalizeHost(value: string): string {
    TrimSuffix(HostPart(value), '.')
  }

  predicate HasLetter(s: string) {
    exists i :: 0 <= i < |s| && 'a' <= s[i] <= 'z'
  }

  function NormalizeDNSHost(value: string): Option<string> {
    var v := TrimSpace(ToLower(value));
    if ':' in v then None
    else
      var name := TrimSuffix(v, '.');
      if ParsesAsIP(name) then None
      else if ByteLen(name) > 253 || !IsHostname(name) then None
      else
        var labels := Split(name, '.');
        if |labels| < 2 || !HasLetter(labels[|labels| - 1]) then None
        else Some(name)
  }

  // ---- Shape of accepted hosts ----

  predicate TwoColons(s: string) {
    exists i, j :: 0 <= i < j < |s| && s[i] == ':' && s[j] == ':'
  }

  /** What no accepted host contains: spaces, brackets, and a final dot. */
  predicate HostShape(s: string) {
    && s != ""
    && s[|s| - 1] != '.'
    && (forall c :: c in s ==> IsAlnum(c) || c == '-' || c == '.' || c == ':')
    && (':' in s ==> TwoColons(s))
  }

  lemma {:induction false} SplitChars(s: string, sep: char, c: char)
    requires c in s && c != sep
    ensures exists p :: p in Split(s, sep) && c in p
  {
    hide IndexOf;
    var i := IndexOf(s, sep);
    if i < |s| {
      assert s == s[..i] + [sep] + s[i + 1..];
      if c in s[..i] {
        assert s[..i] == Split(s, sep)[0];
      } else {
        SplitChars(s[i + 1..], sep, c);
        var p :| p in Split(s[i + 1..], sep) && c in p;
        assert p in Split(s, sep);
      }
    } else {
      assert s in Split(s, sep);
    }
  }

  /** A string that is empty or ends in the separator has an empty last part. */
  lemma {:induction false} SplitLastEmpty(s: string, sep: char)
    requires s == "" || s[|s| - 1] == sep
    ensures "" in Split(s, sep)
  {
    hide IndexOf;
    var i := IndexOf(s, sep);
    if i < |s| {
      SplitLastEmpty(s[i + 1..], sep);
      assert Split(s, sep) == [s[..i]] + Split(s[i + 1..], sep);
    }
  }

  lemma HostnameShape(s: string)
    requires IsHostname(s)
    ensures HostShape(s) && ':' !in s
  {
    if s == "" || s[|s| - 1] == '.' { SplitLastEmpty(s, '.'); }
    forall c | c in s ensures IsAlnum(c) || c == '-' || c == '.' {
      if c != '.' { SplitChars(s, '.', c); }
    }
  }

  lemma IPv4Shape(s: string)
    requires IsIPv4(s)
    ensures HostShape(s) && ':' !in s
  {
    if s == "" || s[|s| - 1] == '.' { SplitLastEmpty(s, '.'); }
    forall c | c in s ensures IsDigit(c) || c == '.' {
      if c != '.' { SplitChars(s, '.', c); }
    }
  }

  lemma {:induction false} GroupsShape(s: string, allowIPv4: bool)
    requires Groups(s, allowIPv4).Some?
    ensures s != "" && s[|s| - 1] != '.'
    ensures forall c :: c in s ==> IsAlnum(c) || c == '.' || c == ':'
    ensures Groups(s, allowIPv4).value >= 3 ==> ':' in s
    ensures Groups(s, allowIPv4).value >= 4 ==> TwoColons(s)
    decreases |s|
  {
    var i := IndexOf(s, ':');
    if i == |s| {
      if IsHexGroup(s) {
        assert s[|s| - 1] in s;
      } else {
        IPv4Chars(s);
      }
    } else {
      var rest := s[i + 1..];
      GroupsShape(rest, allowIPv4);
      assert s == s[..i] + [':'] + rest;
      if ':' in rest {
        var j :| 0 <= j < |rest| && rest[j] == ':';
        assert s[i + 1 + j] == ':';
      }
    }
  }

  lemma IPv4Chars(s: string)
    requires IsIPv4(s)
    ensures s != "" && s[|s| - 1] != '.'
    ensures forall c :: c in s ==> IsAlnum(c) || c == '.'
  {
    IPv4Shape(s);
    forall c | c in s ensures IsAlnum(c) || c == '.' {
      if c != '.' { SplitChars(s, '.', c); }
    }
  }

  predicate AddressChars(s: string) {
    forall c :: c in s ==> IsAlnum(c) || c == '.' || c == ':'
  }

  lemma EllipsisShape(s: string, i: nat)
    requires i + 2 <= |s| && EllipsisAt(s, i)
    ensures HostShape(s)
  {
    var left, right := s[..i], s[i + 2..];
    assert AddressChars(left) by { if left != "" { GroupsShape(left, false); } }
    assert AddressChars(right) by { if right != "" { GroupsShape(right, true); } }
    assert s[|s| - 1] != '.' by { if right != "" { GroupsShape(right, true); } }
    hide Groups, EllipsisAt;
    assert s == left + [s[i], s[i + 1]] + right;
    assert AddressChars(s);
  }

  lemma IPv6Shape(s: string)
    requires IsIPv6(s)
    ensures HostShape(s)
  {
    if Groups(s, true) == Some(8) {
      GroupsShape(s, true);
    } else {
      var i: nat :| i + 2 <= |s| && EllipsisAt(s, i);
      EllipsisShape(s, i);
    }
  }

  lemma ValidHostShape(s: string)
    requires ValidHost(s)
    ensures HostShape(s)
  {
    if IsIPv4(s) { IPv4Shape(s); }
    else if IsIPv6(s) { IPv6Shape(s); }
    else { HostnameShape(s); }
  }

  lemma ShapeHasNoPort(s: string)
    requires HostShape(s)
    ensures SplitHost(s).None?
  {
    if ':' in s {
      var i, j :| 0 <= i < j < |s| && s[i] == ':' && s[j] == ':';
      var last := LastIndexOf(s, ':');
      assert j <= last;
      assert s[..last][i] == ':';
      assert s[0] in s;
    }
  }

  lemma LowerParts(part: string, whole: string)
    requires IsLower(whole) && forall c :: c in part ==> c in whole
    ensures IsLower(part)
  {}

  lemma NormalizeHostIsLower(value: string)
    ensures IsLower(NormalizeHost(value))
  {
    hide IsLower, ToLower, TrimSpace, SplitHost;
    var lower := ToLower(value);
    ToLowerIsLower(value);
    var v := TrimSpace(lower);
    LowerParts(v, lower);
    LowerParts(HostPart(value), v);
    LowerParts(NormalizeHost(value), HostPart(value));
  }

  lemma ShapeIsTrimmed(s: string)
    requires HostShape(s)
    ensures Trimmed(s) && TrimSuffix(s, '.') == s
  {
    assert s[0] in s && s[|s| - 1] in s;
  }

  /** A lower-case host of the accepted shape is left alone. */
  lemma NormalizeHostOfShape(h: string)
    requires IsLower(h) && HostShape(h)
    ensures NormalizeHost(h) == h
  {
    ToLowerFixed(h);
    ShapeIsTrimmed(h);
    ShapeHasNoPort(h);
  }

  /** Normalizing an accepted host again changes nothing. */
  lemma NormalizeHostFixed(value: string)
    requires ValidHost(NormalizeHost(value))
    ensures NormalizeHost(NormalizeHost(value)) == NormalizeHost(value)
  {
    NormalizeHostIsLower(value);
    ValidHostShape(NormalizeHost(value));
    NormalizeHostOfShape(NormalizeHost(value));
  }

  lemma NormalizeDNSHostAccepts(value: string)
    requires NormalizeDNSHost(value).Some?
    ensures NormalizeDNSHost(value).value == NormalizeHost(value)
    ensures IsHostname(NormalizeHost(value)) && ValidHost(NormalizeHost(value))
  {
    assert SplitHost(TrimSpace(ToLower(value))).None?;
  }

  /** On an accepted DNS name the two normalizers agree, and the name is a fixed point of both. */
  lemma NormalizersAgree(value: string)
    requires NormalizeDNSHost(value).Some?
    ensures NormalizeHost(value) == NormalizeDNSHost(value).value
    ensures NormalizeDNSHost(NormalizeDNSHost(value).value) == NormalizeDNSHost(value)
    ensures NormalizeHost(NormalizeDNSHost(value).value) == NormalizeDNSHost(value).value
  {
    var name := NormalizeHost(value);
    NormalizeDNSHostAccepts(value);
    NormalizeHostFixed(value);
    HostnameShape(name);
    ShapeIsTrimmed(name);
    NormalizeHostIsLower(value);
    ToLowerFixed(name);
  }

  /** A DNS name is accepted if and only if it comes without a port and its normal form is a host name of at least two
      labels that is no address and ends in a label with a letter. */
  lemma NormalizeDNSHostIff(value: string)
    ensures var name, labels := NormalizeHost(value), Split(NormalizeHost(value), '.');
      NormalizeDNSHost(value).Some? <==>
        && ':' !in TrimSpace(ToLower(value)) && IsHostname(name) && ByteLen(name) <= 253 && !ParsesAsIP(name)
        && |labels| >= 2 && HasLetter(labels[|labels| - 1])
  {
    hide IsHostname, ParsesAsIP, HasLetter, Split, ByteLen;
    if ':' !in TrimSpace(ToLower(value)) { assert SplitHost(TrimSpace(ToLower(value))).None?; }
  }

  // ---- When normalizing twice is normalizing once ----

  predicate EndsInTwoDots(s: string) { |s| > 1 && s[|s| - 1] == '.' && s[|s| - 2] == '.' }

  /** A host that the second normalization can only cut a final dot from: it has no port of its own, at most one final
      dot, and no spaces at its ends before that dot. */
  predicate HasOneForm(host: string) {
    SplitHost(host).None? && !EndsInTwoDots(host) && Trimmed(TrimSuffix(host, '.'))
  }

  lemma SplitShortens(s: string)
    requires SplitHost(s).Some?
    ensures |SplitHost(s).value| < |s|
  {}

  lemma TrimSpaceWhole(s: string)
    ensures |TrimSpace(s)| <= |s| && (|TrimSpace(s)| == |s| ==> Trimmed(s))
  {}

  /** A final dot has no part in whether there is a port. */
  lemma {:induction false} SplitIgnoresDot(s: string)
    ensures SplitHost(s + ".").Some? <==> SplitHost(s).Some?
  {
    hide IndexOf, LastIndexOf;
    var dotted := s + ".";
    var i, j := LastIndexOf(s, ':'), LastIndexOf(dotted, ':');
    assert dotted[|s|] == '.';
    assert ':' in dotted <==> ':' in s;
    if ':' in s {
      assert dotted[i] == ':' && s[j] == ':';
      assert i == j;
      assert dotted[..i] == s[..i];
      SameBrackets(s);
      if s[0] == '[' {
        var end, end' := IndexOf(s, ']'), IndexOf(dotted, ']');
        assert ']' in s ==> dotted[end] == ']' && s[end'] == ']';
        assert ']' in s ==> end == end';
        if ']' in s {
          assert dotted[1..] == s[1..] + "." && dotted[end + 1..] == s[end + 1..] + ".";
        }
      }
    }
  }

  lemma SameBrackets(s: string)
    ensures '[' in s + "." <==> '[' in s
    ensures ']' in s + "." <==> ']' in s
  {
    var dotted := s + ".";
    assert dotted[|s|] == '.';
  }

  /** What normalizing a lower-case host again leaves alone. */
  lemma NormalizeHostFixedIff(h: string)
    requires IsLower(h)
    ensures NormalizeHost(h) == h <==> Trimmed(h) && SplitHost(h).None? && TrimSuffix(h, '.') == h
  {
    hide TrimSpace, SplitHost;
    ToLowerFixed(h);
    TrimSpaceWhole(h);
    var v := TrimSpace(h);
    if SplitHost(v).Some? { SplitShortens(v); }
  }

  lemma OneFormIffFixed(host: string)
    ensures var n := TrimSuffix(host, '.');
      HasOneForm(host) <==> Trimmed(n) && SplitHost(n).None? && TrimSuffix(n, '.') == n
  {
    hide SplitHost, Trimmed;
    var n := TrimSuffix(host, '.');
    if n != host {
      assert host == n + ".";
      SplitIgnoresDot(n);
      assert EndsInTwoDots(host) <==> n != "" && n[|n| - 1] == '.';
    }
  }

  /** Normalizing twice is normalizing once exactly for the values whose host part has one form. */
  lemma NormalizeHostTwiceIff(value: string)
    ensures NormalizeHost(NormalizeHost(value)) == NormalizeHost(value) <==> HasOneForm(HostPart(value))
  {
    NormalizeHostIsLower(value);
    NormalizeHostFixedIff(NormalizeHost(value));
    OneFormIffFixed(HostPart(value));
    assert NormalizeHost(value) == TrimSuffix(HostPart(value), '.');
    hide NormalizeHost, HostPart, HasOneForm, SplitHost, Trimmed, TrimSuffix, IsLower;
  }

  /** There are values outside: the first normalization leaves a dot for the second to cut. */
  lemma NormalizeHostNotIdempotent()
    ensures NormalizeHost("a..") == "a." && NormalizeHost("a.") == "a"
  {
    assert ToLower("a..") == "a..";
    assert ToLower("a.") == "a.";
    assert Trimmed("a..") && Trimmed("a.");
  }

  // ---- What a request's host is worth ----

  lemma SplitAtPort(host: string, port: string)
    requires ':' !in host && '[' !in host && ']' !in host
    requires ':' !in port && '[' !in port && ']' !in port
    ensures SplitHost(host + ":" + port) == Some(host)
  {
    hide IndexOf, LastIndexOf;
    var whole := host + ":" + port;
    var i := LastIndexOf(whole, ':');
    assert whole[|host|] == ':';
    assert forall k :: |host| < k < |whole| ==> whole[k] == port[k - |host| - 1];
    assert forall k :: 0 <= k < |host| ==> whole[k] == host[k];
    assert i == |host|;
    assert whole[..i] == host;
  }

  lemma LowerOfWhole(host: string, port: string)
    requires IsLower(port)
    ensures ToLower(host + ":" + port) == ToLower(host) + ":" + port
  {
    var whole := host + ":" + port;
    assert Lower(':') == ':';
  }

  /** The host is the name, but for letters in upper case. */
  predicate SpelledAs(host: string, name: string) {
    && |host| == |name|
    && forall i :: 0 <= i < |host| ==>
         && name[i] < '\U{0080}' && !('A' <= name[i] <= 'Z')
         && (host[i] == name[i] || ('A' <= host[i] <= 'Z' && host[i] as int + 32 == name[i] as int))
  }

  lemma SpelledLower(host: string, name: string)
    requires SpelledAs(host, name)
    ensures ToLower(host) == name
  {}

  /** Upper case, a port and a final dot make no difference to the host that a request is for. */
  lemma RequestHost(name: string, host: string, port: string)
    requires SpelledAs(host, name) && IsHostname(name) && port != "" && forall c :: c in port ==> IsDigit(c)
    ensures NormalizeHost(host) == NormalizeHost(host + ".") == name
    ensures NormalizeHost(host + ":" + port) == NormalizeHost(host + ".:" + port) == name
  {
    hide IsHostname, SplitHost, TrimSpace;
    SpelledLower(host, name);
    hide SpelledAs;
    HostnameShape(name);
    ShapeIsTrimmed(name);
    ShapeHasNoPort(name);
    ToLowerIsLower(host);
    assert IsLower(port);
    NoPort(name);
    WithPort(name, port);
    WithPort(name + ".", port);
    LowerOfWhole(host, port);
    LowerOfWhole(host + ".", port);
    assert ToLower(host + ".") == name + ".";
    assert host + ".:" + port == (host + ".") + ":" + port;
    hide ToLower;
  }

  lemma NoPort(name: string)
    requires HostShape(name) && ':' !in name
    ensures TrimSpace(name) == name && TrimSpace(name + ".") == name + "."
    ensures SplitHost(name).None? && SplitHost(name + ".").None?
    ensures TrimSuffix(name, '.') == name && TrimSuffix(name + ".", '.') == name
  {
    hide SplitHost, HostShape, TrimSpace;
    ShapeIsTrimmed(name);
    ShapeHasNoPort(name);
    SplitIgnoresDot(name);
    DotIsTrimmed(name);
    hide Trimmed;
  }

  lemma DotIsTrimmed(name: string)
    requires HostShape(name) && Trimmed(name)
    ensures Trimmed(name + ".") && TrimSuffix(name + ".", '.') == name
  {
    var dotted := name + ".";
    assert dotted[0] == name[0] && dotted[|dotted| - 1] == '.';
    assert dotted[..|name|] == name;
  }

  lemma WithPort(host: string, port: string)
    requires host != "" && !IsSpace(host[0]) && ':' !in host && '[' !in host && ']' !in host
    requires port != "" && forall c :: c in port ==> IsDigit(c)
    ensures TrimSpace(host + ":" + port) == host + ":" + port && SplitHost(host + ":" + port) == Some(host)
  {
    hide TrimSpace, SplitHost;
    var whole := host + ":" + port;
    assert port[|port| - 1] in port;
    assert whole[0] == host[0] && whole[|whole| - 1] == port[|port| - 1];
    assert Trimmed(whole);
    SplitAtPort(host, port);
  }
}
