/**
 * The private-address tests shared by the OSS-cluster examples.
 *
 * Every cluster example decides whether a node address reported by the
 * cluster is private by testing the host text against fixed prefixes. The
 * Python cluster example, both Java cluster examples, the two Spring
 * configurations and the Go cluster example all use the same eighteen
 * prefixes ("10.", "172.16." to "172.31.", "192.168."), so one predicate
 * models all six copies. The Python user- and system-assigned examples use
 * three broader prefixes ("10.", "172.", "192.168.").
 */
module PrivateHosts {

  /** Python's str.startswith, Java's String.startsWith and Go's
      strings.HasPrefix. */
  predicate StartsWith(s: string, prefix: string) {
    |prefix| <= |s| && s[..|prefix|] == prefix
  }

  /** The eighteen-prefix test (isInternalIP / isPrivateIP). */
  predicate IsInternalIP(host: string) {
    StartsWith(host, "10.") ||
    StartsWith(host, "172.16.") || StartsWith(host, "172.17.") ||
    StartsWith(host, "172.18.") || StartsWith(host, "172.19.") ||
    StartsWith(host, "172.20.") || StartsWith(host, "172.21.") ||
    StartsWith(host, "172.22.") || StartsWith(host, "172.23.") ||
    StartsWith(host, "172.24.") || StartsWith(host, "172.25.") ||
    StartsWith(host, "172.26.") || StartsWith(host, "172.27.") ||
    StartsWith(host, "172.28.") || StartsWith(host, "172.29.") ||
    StartsWith(host, "172.30.") || StartsWith(host, "172.31.") ||
    StartsWith(host, "192.168.")
  }

  /** The three-prefix test of the user- and system-assigned examples. */
  predicate IsBroadPrivate(host: string) {
    StartsWith(host, "10.") || StartsWith(host, "172.") || StartsWith(host, "192.168.")
  }

  // ---------------------------------------------------------------------
  // A reference reading of the eighteen prefixes.
  // ---------------------------------------------------------------------

  predicate IsDigit(c: char) {
    '0' <= c <= '9'
  }

  function DigitValue(c: char): (v: nat)
    requires IsDigit(c)
    ensures v <= 9
  {
    c as int - '0' as int
  }

  /** "172.", then a second field of exactly two digits whose value is
      between 16 and 31, then '.'. */
  predicate InBlock172(host: string) {
    StartsWith(host, "172.") && |host| >= 7 &&
    IsDigit(host[4]) && IsDigit(host[5]) && host[6] == '.' &&
    16 <= 10 * DigitValue(host[4]) + DigitValue(host[5]) <= 31
  }

  /** The private blocks written as text: "10.", the 172 block with its
      second field read as a number, or "192.168.". */
  predicate IsPrivateText(host: string) {
    StartsWith(host, "10.") || InBlock172(host) || StartsWith(host, "192.168.")
  }

  lemma Prefix7(host: string, p: string)
    requires |p| == 7 && |host| >= 7
    ensures StartsWith(host, p) <==>
              (host[0] == p[0] && host[1] == p[1] && host[2] == p[2] && host[3] == p[3] &&
               host[4] == p[4] && host[5] == p[5] && host[6] == p[6])
  {
    if forall k :: 0 <= k < 7 ==> host[k] == p[k] {
      assert host[..7] == p;
    }
  }

  /** The second fields 16 to 31, digit by digit. */
  predicate SecondField16To31(x: char, y: char) {
    (x == '1' && '6' <= y <= '9') || (x == '2' && IsDigit(y)) || (x == '3' && (y == '0' || y == '1'))
  }

  lemma SecondFieldValue(x: char, y: char)
    ensures SecondField16To31(x, y) <==> IsDigit(x) && IsDigit(y) && 16 <= 10 * DigitValue(x) + DigitValue(y) <= 31
  {
  }

  predicate Starts172(host: string) {
    |host| >= 7 && host[0] == '1' && host[1] == '7' && host[2] == '2' && host[3] == '.' && host[6] == '.'
  }

  lemma Prefixes16To23(host: string)
    ensures (StartsWith(host, "172.16.") || StartsWith(host, "172.17.") ||
             StartsWith(host, "172.18.") || StartsWith(host, "172.19.") ||
             StartsWith(host, "172.20.") || StartsWith(host, "172.21.") ||
             StartsWith(host, "172.22.") || StartsWith(host, "172.23."))
            <==> Starts172(host) && ((host[4] == '1' && '6' <= host[5] <= '9') || (host[4] == '2' && '0' <= host[5] <= '3'))
  {
    if |host| >= 7 {
      Prefix7(host, "172.16."); Prefix7(host, "172.17."); Prefix7(host, "172.18."); Prefix7(host, "172.19.");
      Prefix7(host, "172.20."); Prefix7(host, "172.21."); Prefix7(host, "172.22."); Prefix7(host, "172.23.");
    }
  }

  lemma Prefixes24To31(host: string)
    ensures (StartsWith(host, "172.24.") || StartsWith(host, "172.25.") ||
             StartsWith(host, "172.26.") || StartsWith(host, "172.27.") ||
             StartsWith(host, "172.28.") || StartsWith(host, "172.29.") ||
             StartsWith(host, "172.30.") || StartsWith(host, "172.31."))
            <==> Starts172(host) && ((host[4] == '2' && '4' <= host[5] <= '9') || (host[4] == '3' && '0' <= host[5] <= '1'))
  {
    if |host| >= 7 {
      Prefix7(host, "172.24."); Prefix7(host, "172.25."); Prefix7(host, "172.26."); Prefix7(host, "172.27.");
      Prefix7(host, "172.28."); Prefix7(host, "172.29."); Prefix7(host, "172.30."); Prefix7(host, "172.31.");
    }
  }

  /** The sixteen "172.x." prefixes are the two-digit second fields from
      16 to 31. */
  lemma Prefixes172(host: string)
    ensures (StartsWith(host, "172.16.") || StartsWith(host, "172.17.") ||
             StartsWith(host, "172.18.") || StartsWith(host, "172.19.") ||
             StartsWith(host, "172.20.") || StartsWith(host, "172.21.") ||
             StartsWith(host, "172.22.") || StartsWith(host, "172.23.") ||
             StartsWith(host, "172.24.") || StartsWith(host, "172.25.") ||
             StartsWith(host, "172.26.") || StartsWith(host, "172.27.") ||
             StartsWith(host, "172.28.") || StartsWith(host, "172.29.") ||
             StartsWith(host, "172.30.") || StartsWith(host, "172.31."))
            <==> InBlock172(host)
  {
    Prefixes16To23(host);
    Prefixes24To31(host);
    if |host| >= 7 {
      SecondFieldValue(host[4], host[5]);
      assert StartsWith(host, "172.") <==> host[0] == '1' && host[1] == '7' && host[2] == '2' && host[3] == '.' by {
        if host[0] == '1' && host[1] == '7' && host[2] == '2' && host[3] == '.' {
          assert host[..4] == "172.";
        }
      }
    }
  }

  /** The eighteen prefixes are exactly the private blocks read as text. */
  lemma InternalIsPrivateText(host: string)
    ensures IsInternalIP(host) <==> IsPrivateText(host)
  {
    Prefixes172(host);
  }

  /** Every host the eighteen prefixes match, the three broad prefixes
      match too. */
  lemma InternalIsBroad(host: string)
    ensures IsInternalIP(host) ==> IsBroadPrivate(host)
  {
    if IsInternalIP(host) && !StartsWith(host, "10.") && !StartsWith(host, "192.168.") {
      Prefixes172(host);
      assert host[..4] == host[..7][..4];
    }
  }

  // ---------------------------------------------------------------------
  // Dotted quads and the private blocks of RFC 1918, section 3.
  // ---------------------------------------------------------------------

  function Digit(n: nat): char
    requires n < 10
  {
    ('0' as int + n) as char
  }

  /** An octet in decimal without leading zeros. */
  function OctetText(n: nat): (s: string)
    requires n < 256
    ensures 1 <= |s| <= 3
    ensures forall k :: 0 <= k < |s| ==> IsDigit(s[k])
  {
    if n < 10 then [Digit(n)]
    else if n < 100 then [Digit(n / 10), Digit(n % 10)]
    else [Digit(n / 100), Digit(n / 10 % 10), Digit(n % 10)]
  }

  /** The canonical text of the IPv4 address a.b.c.d. */
  function DottedQuad(a: nat, b: nat, c: nat, d: nat): string
    requires a < 256 && b < 256 && c < 256 && d < 256
  {
    OctetText(a) + "." + OctetText(b) + "." + OctetText(c) + "." + OctetText(d)
  }

  /** 10.0.0.0/8, 172.16.0.0/12 and 192.168.0.0/16. */
  predicate InRfc1918(a: nat, b: nat) {
    a == 10 || (a == 172 && 16 <= b <= 31) || (a == 192 && b == 168)
  }

  /** A field of digits followed by '.' starts with a given field and '.'
      exactly when the two fields are equal. */
  lemma FieldPrefix(u: string, rest: string, v: string)
    requires forall k :: 0 <= k < |u| ==> IsDigit(u[k])
    requires forall k :: 0 <= k < |v| ==> IsDigit(v[k])
    ensures StartsWith(u + "." + rest, v + ".") <==> u == v
  {
    var s := u + "." + rest;
    var w := v + ".";
    assert w[|v|] == '.';
    if |v| < |u| {
      assert s[|v|] == u[|v|];
      assert |w| <= |s| ==> s[..|w|][|v|] == s[|v|];
    } else if |v| > |u| {
      assert s[|u|] == '.';
      assert w[|u|] == v[|u|];
      assert |w| <= |s| ==> s[..|w|][|u|] == s[|u|];
    } else {
      assert s[..|w|] == u + ".";
      assert u == (u + ".")[..|u|];
      assert v == w[..|v|];
    }
  }

  lemma OctetTextIs(n: nat, m: nat)
    requires n < 256 && m < 256
    ensures OctetText(n) == OctetText(m) <==> n == m
  {
    if OctetText(n) == OctetText(m) {
      assert |OctetText(n)| == |OctetText(m)|;
    }
  }

  /** The first field of a dotted text is a given octet exactly when the
      octets are equal. */
  lemma FirstField(a: nat, tail: string, v: nat)
    requires a < 256 && v < 256
    ensures StartsWith(OctetText(a) + "." + tail, OctetText(v) + ".") <==> a == v
  {
    FieldPrefix(OctetText(a), tail, OctetText(v));
    OctetTextIs(a, v);
  }

  lemma Quad10(a: nat, tail: string)
    requires a < 256
    ensures StartsWith(OctetText(a) + "." + tail, "10.") <==> a == 10
  {
    assert OctetText(10) + "." == "10.";
    FirstField(a, tail, 10);
  }

  lemma Quad192168(a: nat, b: nat, rest: string)
    requires a < 256 && b < 256
    ensures StartsWith(OctetText(a) + "." + OctetText(b) + "." + rest, "192.168.") <==> a == 192 && b == 168
  {
    var tail := OctetText(b) + "." + rest;
    var host := OctetText(a) + "." + tail;
    assert OctetText(a) + "." + OctetText(b) + "." + rest == host;
    assert OctetText(192) + "." == "192.";
    assert OctetText(168) + "." == "168.";
    FirstField(a, tail, 192);
    FirstField(b, rest, 168);
    if StartsWith(host, "192.") {
      assert |OctetText(a)| == 3;
      assert host[4..] == tail;
      assert StartsWith(host, "192.168.") <==> StartsWith(tail, "168.") by {
        if |host| >= 8 {
          assert host[..8] == host[..4] + tail[..4];
        }
      }
    } else {
      assert !StartsWith(host, "192.168.") by {
        if |host| >= 8 {
          assert host[..4] == host[..8][..4];
        }
      }
    }
  }

  lemma Quad172(a: nat, b: nat, rest: string)
    requires a < 256 && b < 256
    ensures InBlock172(OctetText(a) + "." + OctetText(b) + "." + rest) <==> a == 172 && 16 <= b <= 31
  {
    var tail := OctetText(b) + "." + rest;
    var host := OctetText(a) + "." + tail;
    assert OctetText(a) + "." + OctetText(b) + "." + rest == host;
    assert OctetText(172) + "." == "172.";
    FirstField(a, tail, 172);
    if a == 172 {
      assert host[4..] == tail;
      if 10 <= b < 100 {
        assert host[4] == Digit(b / 10) && host[5] == Digit(b % 10) && host[6] == '.';
        assert 10 * DigitValue(host[4]) + DigitValue(host[5]) == b;
      } else if b < 10 {
        assert |host| >= 7 ==> host[5] == '.';
      } else {
        assert |host| >= 7 ==> IsDigit(host[6]);
      }
    }
  }

  lemma DottedQuadPrivateText(a: nat, b: nat, c: nat, d: nat)
    requires a < 256 && b < 256 && c < 256 && d < 256
    ensures IsPrivateText(DottedQuad(a, b, c, d)) <==> InRfc1918(a, b)
  {
    var rest := OctetText(c) + "." + OctetText(d);
    var host := DottedQuad(a, b, c, d);
    assert host == OctetText(a) + "." + OctetText(b) + "." + rest;
    Quad10(a, OctetText(b) + "." + rest);
    assert host == OctetText(a) + "." + (OctetText(b) + "." + rest);
    Quad172(a, b, rest);
    Quad192168(a, b, rest);
  }

  /** For canonical dotted quads, the eighteen prefixes select exactly the
      private blocks of RFC 1918. */
  lemma DottedQuadInternal(a: nat, b: nat, c: nat, d: nat)
    requires a < 256 && b < 256 && c < 256 && d < 256
    ensures IsInternalIP(DottedQuad(a, b, c, d)) <==> InRfc1918(a, b)
  {
    InternalIsPrivateText(DottedQuad(a, b, c, d));
    DottedQuadPrivateText(a, b, c, d);
  }

  /** Text prefixes, not addresses: "10.example" is internal and
      "100.64.0.1" is not. */
  lemma TextExamples()
    ensures IsInternalIP("10.example") && !IsInternalIP("100.64.0.1")
  {
    assert "10.example"[..3] == "10.";
    var h := "100.64.0.1";
    assert h[1] == '0' && h[2] == '0';
    assert forall k :: 3 <= k <= |h| ==> h[..k][1] == '0' && h[..k][2] == '0';
  }

  /** At the edges of the 172 block: 172.15.0.1 and 172.32.0.1 are not
      internal, 172.16.0.1 and 172.31.255.255 are. */
  lemma Block172Edges()
    ensures !IsInternalIP(DottedQuad(172, 15, 0, 1)) && !IsInternalIP(DottedQuad(172, 32, 0, 1))
    ensures IsInternalIP(DottedQuad(172, 16, 0, 1)) && IsInternalIP(DottedQuad(172, 31, 255, 255))
  {
    DottedQuadInternal(172, 15, 0, 1);
    DottedQuadInternal(172, 32, 0, 1);
    DottedQuadInternal(172, 16, 0, 1);
    DottedQuadInternal(172, 31, 255, 255);
  }

  /** Addresses just outside the blocks are not internal: 9.255.255.255,
      11.0.0.1, 192.167.255.255 and 192.169.0.1. */
  lemma NeighbourBlocks()
    ensures !IsInternalIP(DottedQuad(9, 255, 255, 255)) && !IsInternalIP(DottedQuad(11, 0, 0, 1))
    ensures !IsInternalIP(DottedQuad(192, 167, 255, 255)) && !IsInternalIP(DottedQuad(192, 169, 0, 1))
  {
    DottedQuadInternal(9, 255, 255, 255);
    DottedQuadInternal(11, 0, 0, 1);
    DottedQuadInternal(192, 167, 255, 255);
    DottedQuadInternal(192, 169, 0, 1);
  }

  /** 172.0.0.1 and 172.200.1.1 are only broadly private; 192.169.0.1 is
      neither. */
  lemma BroadOnlyExamples()
    ensures IsBroadPrivate(DottedQuad(172, 0, 0, 1)) && !IsInternalIP(DottedQuad(172, 0, 0, 1))
    ensures IsBroadPrivate(DottedQuad(172, 200, 1, 1)) && !IsInternalIP(DottedQuad(172, 200, 1, 1))
    ensures !IsBroadPrivate(DottedQuad(192, 169, 0, 1))
  {
    DottedQuadInternal(172, 0, 0, 1);
    DottedQuadInternal(172, 200, 1, 1);
    BroadQuad(172, 0, 0, 1);
    BroadQuad(172, 200, 1, 1);
    BroadQuad(192, 169, 0, 1);
  }

  /** The broad prefixes on a dotted quad: 10.0.0.0/8, all of 172.0.0.0/8
      and 192.168.0.0/16. */
  lemma BroadQuad(a: nat, b: nat, c: nat, d: nat)
    requires a < 256 && b < 256 && c < 256 && d < 256
    ensures IsBroadPrivate(DottedQuad(a, b, c, d)) <==> a == 10 || a == 172 || (a == 192 && b == 168)
  {
    var rest := OctetText(c) + "." + OctetText(d);
    var host := DottedQuad(a, b, c, d);
    assert host == OctetText(a) + "." + (OctetText(b) + "." + rest);
    Quad10(a, OctetText(b) + "." + rest);
    assert OctetText(172) + "." == "172.";
    FirstField(a, OctetText(b) + "." + rest, 172);
    assert host == OctetText(a) + "." + OctetText(b) + "." + rest;
    Quad192168(a, b, rest);
  }
}
