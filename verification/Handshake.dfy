/** Well-formed ClientHellos, and what the parser finds in them, whole, truncated or followed by other bytes. */
module Handshake {
  import opened Common
  import opened ClientHello

  // ---- encoding ----

  datatype Extension = Extension(kind: nat, data: Bytes)

  /** The parts of a ClientHello between the two length prefixes, with its extensions in any order. */
  datatype Hello = Hello(version: Bytes, random: Bytes, session: Bytes, ciphers: Bytes, compression: Bytes,
                         extensions: seq<Extension>)

  function B8(n: nat): Bytes
    requires n < 256
  {
    [n]
  }

  function B16(n: nat): Bytes
    requires n < 65536
  {
    [n / 256, n % 256]
  }

  function B24(n: nat): Bytes
    requires n < 0x100_0000
  {
    [n / 65536, n / 256 % 256, n % 256]
  }

  /** server_name with one host_name entry. */
  function SniData(host: Bytes): Bytes
    requires |host| + 3 < 65536
  {
    B16(|host| + 3) + B8(0) + B16(|host|) + host
  }

  predicate NameOk(name: Bytes) {
    0 < |name| < 256
  }

  function NameList(names: seq<Bytes>): Bytes
    requires forall i | 0 <= i < |names| :: NameOk(names[i])
  {
    if names == [] then []
    else
      assert NameOk(names[0]);
      B8(|names[0]|) + names[0] + NameList(names[1..])
  }

  /** application_layer_protocol_negotiation. */
  function AlpnData(names: seq<Bytes>): Bytes
    requires (forall i | 0 <= i < |names| :: NameOk(names[i])) && |NameList(names)| < 65536
  {
    B16(|NameList(names)|) + NameList(names)
  }

  predicate ExtensionOk(e: Extension) {
    e.kind < 65536 && |e.data| < 65536
  }

  function EncodeAll(es: seq<Extension>): Bytes
    requires forall i | 0 <= i < |es| :: ExtensionOk(es[i])
  {
    if es == [] then []
    else
      assert ExtensionOk(es[0]);
      B16(es[0].kind) + B16(|es[0].data|) + es[0].data + EncodeAll(es[1..])
  }

  predicate HelloOk(h: Hello) {
    && |h.version| == 2 && |h.random| == 32 && |h.session| < 256 && |h.ciphers| < 65536 && |h.compression| < 256
    && (forall i | 0 <= i < |h.extensions| :: ExtensionOk(h.extensions[i])) && |EncodeAll(h.extensions)| < 65536
    && 44 + |h.session| + |h.ciphers| + |h.compression| + |EncodeAll(h.extensions)| < 65536
  }

  /** A vector with a one byte length, and what follows. */
  function Short(v: Bytes, rest: Bytes): Bytes
    requires |v| < 256
  {
    B8(|v|) + (v + rest)
  }

  /** A vector with a two byte length, and what follows. */
  function Long(v: Bytes, rest: Bytes): Bytes
    requires |v| < 65536
  {
    B16(|v|) + (v + rest)
  }

  /** Record header and handshake header, and what follows. */
  function Headed(body: nat, rest: Bytes): Bytes
    requires body + 4 < 65536
  {
    [22, 3, 1] + (B16(4 + body) + (B8(1) + (B24(body) + rest)))
  }

  /** Everything up to and including the length of the extensions. */
  function Opening(h: Hello, extensions: nat): Bytes
    requires |h.session| < 256 && |h.ciphers| < 65536 && |h.compression| < 256 && extensions < 65536
    requires |h.version| == 2 && |h.random| == 32
    requires 44 + |h.session| + |h.ciphers| + |h.compression| + extensions < 65536
  {
    Headed(40 + |h.session| + |h.ciphers| + |h.compression| + extensions,
           (h.version + h.random) + Short(h.session, Long(h.ciphers, Short(h.compression, B16(extensions)))))
  }

  /** One TLS record holding the whole ClientHello. */
  function Encode(h: Hello): Bytes
    requires HelloOk(h)
  {
    Opening(h, |EncodeAll(h.extensions)|) + EncodeAll(h.extensions)
  }

  /** What a receiver should see after these extensions, in order. */
  function Seen(es: seq<Extension>, f: Found): Found {
    if es == [] then f else Seen(es[1..], Noted(f, es[0].kind, es[0].data))
  }

  /** The extensions that lie completely within the first n bytes. */
  function Fitting(es: seq<Extension>, n: int): nat
    requires forall i | 0 <= i < |es| :: ExtensionOk(es[i])
  {
    if es == [] || 4 + |es[0].data| > n then 0 else 1 + Fitting(es[1..], n - 4 - |es[0].data|)
  }

  // ---- reading back what was written ----

  predicate Reads(p: Bytes, at: nat, s: Bytes) {
    at + |s| <= |p| && p[at..at + |s|] == s
  }

  lemma ReadsParts(p: Bytes, at: nat, s: Bytes, t: Bytes)
    requires Reads(p, at, s + t)
    ensures Reads(p, at, s) && Reads(p, at + |s|, t)
  {
    var all := p[at..at + |s + t|];
    assert s == all[..|s|] && t == all[|s|..];
    forall k | 0 <= k < |s| ensures p[at..at + |s|][k] == s[k] {
    }
    forall k | 0 <= k < |t| ensures p[at + |s|..at + |s| + |t|][k] == t[k] {
      assert all[|s| + k] == p[at + |s| + k];
    }
  }

  lemma ReadsByte(p: Bytes, at: nat, n: nat)
    requires n < 256 && Reads(p, at, B8(n))
    ensures At(p, at) == n
  {
    assert p[at..at + 1][0] == p[at];
  }

  lemma ReadsU16(p: Bytes, at: nat, n: nat)
    requires n < 65536 && Reads(p, at, B16(n))
    ensures U16(p, at) == n
  {
    assert p[at..at + 2][0] == p[at] && p[at..at + 2][1] == p[at + 1];
  }

  lemma ReadsU24(p: Bytes, at: nat, n: nat)
    requires n < 0x100_0000 && Reads(p, at, B24(n))
    ensures U24(p, at) == n
  {
    assert p[at..at + 3][0] == p[at] && p[at..at + 3][1] == p[at + 1] && p[at..at + 3][2] == p[at + 2];
  }

  // ---- the two extensions ----

  lemma ReadsSelf(s: Bytes)
    ensures Reads(s, 0, s)
  {
    assert s[0..|s|] == s;
  }

  /** The parser reads back the host name of a server name extension. */
  lemma ServerNameRoundTrip(host: Bytes)
    requires |host| + 3 < 65536
    ensures ServerName(SniData(host)) == host
  {
    var ext := SniData(host);
    ReadsSelf(ext);
    ReadsParts(ext, 0, B16(|host| + 3) + B8(0) + B16(|host|), host);
    ReadsParts(ext, 0, B16(|host| + 3) + B8(0), B16(|host|));
    ReadsParts(ext, 0, B16(|host| + 3), B8(0));
    ReadsU16(ext, 0, |host| + 3);
    ReadsByte(ext, 2, 0);
    ReadsU16(ext, 3, |host|);
  }

  lemma NameReads(ext: Bytes, at: nat, name: Bytes, rest: Bytes, next: nat)
    requires NameOk(name) && Reads(ext, at, B8(|name|) + name + rest) && next == at + 1 + |name|
    ensures at < next <= |ext| && At(ext, at) == |name| && ext[at + 1..next] == name && Reads(ext, next, rest)
  {
    ReadsParts(ext, at, B8(|name|) + name, rest);
    ReadsParts(ext, at, B8(|name|), name);
    ReadsByte(ext, at, |name|);
  }

  lemma {:induction false} NamesRoundTrip(ext: Bytes, at: nat, names: seq<Bytes>)
    requires forall i | 0 <= i < |names| :: NameOk(names[i])
    requires Reads(ext, at, NameList(names)) && |ext| == at + |NameList(names)|
    ensures NamesAt(ext, at, |ext|) == names
    decreases |names|
  {
    if names != [] {
      assert NameOk(names[0]);
      var next := at + 1 + |names[0]|;
      NameReads(ext, at, names[0], NameList(names[1..]), next);
      NamesRoundTrip(ext, next, names[1..]);
      assert NamesAt(ext, at, |ext|) == [names[0]] + NamesAt(ext, next, |ext|);
    }
  }

  lemma ListRoundTrip(ext: Bytes, list: Bytes)
    requires |list| < 65536 && ext == B16(|list|) + list
    ensures U16(ext, 0) == |list| && Reads(ext, 2, list) && ListEnd(ext) == |ext| == 2 + |list|
  {
    ReadsSelf(ext);
    ReadsParts(ext, 0, B16(|list|), list);
    ReadsU16(ext, 0, |list|);
  }

  /** The parser reads back the protocol list of an ALPN extension. */
  lemma ProtocolsRoundTrip(names: seq<Bytes>)
    requires (forall i | 0 <= i < |names| :: NameOk(names[i])) && |NameList(names)| < 65536
    ensures Protocols(AlpnData(names)) == names
  {
    var ext := AlpnData(names);
    ListRoundTrip(ext, NameList(names));
    if names != [] {
      assert NameOk(names[0]);
      NamesRoundTrip(ext, 2, names);
    }
  }

  // ---- the extension loop ----

  /** p agrees with the encoding of es, starting at at, as far as end. */
  predicate Begins(p: Bytes, at: nat, end: nat, s: Bytes) {
    at <= end <= |p| && end - at <= |s| && p[at..end] == s[..end - at]
  }

  lemma BeginsReads(p: Bytes, at: nat, end: nat, s: Bytes, t: Bytes)
    requires Begins(p, at, end, s + t) && |s| <= end - at
    ensures Reads(p, at, s) && Begins(p, at + |s|, end, t)
  {
    var all := p[at..end];
    forall k | 0 <= k < |s| ensures p[at..at + |s|][k] == s[k] {
      assert all[k] == (s + t)[..end - at][k];
    }
    assert p[at..at + |s|] == s;
    var left, want := p[at + |s|..end], t[..end - at - |s|];
    forall k | 0 <= k < |left| ensures left[k] == want[k] {
      assert all[|s| + k] == (s + t)[..end - at][|s| + k];
    }
    assert left == want;
  }

  lemma HeaderReads(p: Bytes, at: nat, end: nat, e: Extension, rest: Bytes, all: Bytes)
    requires ExtensionOk(e) && Begins(p, at, end, all) && at + 4 <= end
    requires all == B16(e.kind) + B16(|e.data|) + e.data + rest
    ensures U16(p, at) == e.kind && U16(p, at + 2) == |e.data|
    ensures at + 4 + |e.data| <= end ==> p[at + 4..at + 4 + |e.data|] == e.data && Begins(p, at + 4 + |e.data|, end, rest)
  {
    var head := B16(e.kind) + B16(|e.data|);
    assert all == head + (e.data + rest);
    BeginsReads(p, at, end, head, e.data + rest);
    ReadsParts(p, at, B16(e.kind), B16(|e.data|));
    ReadsU16(p, at, e.kind);
    ReadsU16(p, at + 2, |e.data|);
    if at + 4 + |e.data| <= end {
      BeginsReads(p, at + 4, end, e.data, rest);
    }
  }

  lemma FirstReads(p: Bytes, at: nat, end: nat, es: seq<Extension>)
    requires es != [] && (forall i | 0 <= i < |es| :: ExtensionOk(es[i])) && Begins(p, at, end, EncodeAll(es)) && at + 4 <= end
    ensures U16(p, at) == es[0].kind && U16(p, at + 2) == |es[0].data|
    ensures at + 4 + |es[0].data| <= end ==>
              p[at + 4..at + 4 + |es[0].data|] == es[0].data && Begins(p, at + 4 + |es[0].data|, end, EncodeAll(es[1..]))
  {
    assert ExtensionOk(es[0]);
    HeaderReads(p, at, end, es[0], EncodeAll(es[1..]), EncodeAll(es));
  }

  /** One turn of the loop: an extension is noted if it fits before the cut, and otherwise ends the loop. */
  lemma WalkTurn(p: Bytes, at: nat, end: nat, kind: nat, data: Bytes, f: Found, next: nat)
    requires at <= end <= |p| && next == at + 4 + |data|
    requires at + 4 <= end ==> U16(p, at) == kind && U16(p, at + 2) == |data|
    requires next <= end ==> p[at + 4..next] == data
    ensures Walk(p, at, end, f) == if next > end then f else Walk(p, next, end, Noted(f, kind, data))
  {
  }

  /** The extensions seen before a cut: the first one if it fits, and those of the rest that do. */
  lemma SeenFirst(es: seq<Extension>, n: int, f: Found)
    requires es != [] && forall i | 0 <= i < |es| :: ExtensionOk(es[i])
    ensures var size := 4 + |es[0].data|;
      if size > n then Fitting(es, n) == 0 && Seen(es[..0], f) == f
      else
        var m := Fitting(es[1..], n - size);
        Fitting(es, n) == 1 + m && (m < |es| ==> Seen(es[..1 + m], f) == Seen(es[1..][..m], Noted(f, es[0].kind, es[0].data)))
  {
    var size := 4 + |es[0].data|;
    if size <= n {
      var m := Fitting(es[1..], n - size);
      if m < |es| {
        assert es[..1 + m][1..] == es[1..][..m];
      }
    }
  }

  lemma WalkFirst(p: Bytes, at: nat, end: nat, es: seq<Extension>, f: Found, next: nat)
    requires es != [] && (forall i | 0 <= i < |es| :: ExtensionOk(es[i])) && Begins(p, at, end, EncodeAll(es))
    requires next == at + 4 + |es[0].data|
    ensures next <= end ==> Begins(p, next, end, EncodeAll(es[1..]))
    ensures Walk(p, at, end, f) == if next > end then f else Walk(p, next, end, Noted(f, es[0].kind, es[0].data))
  {
    if at + 4 <= end {
      FirstReads(p, at, end, es);
    }
    WalkTurn(p, at, end, es[0].kind, es[0].data, f, next);
  }

  /** Cut anywhere, the loop sees exactly the extensions that lie completely before the cut. */
  lemma {:induction false} WalkSees(p: Bytes, at: nat, end: nat, es: seq<Extension>, f: Found)
    requires (forall i | 0 <= i < |es| :: ExtensionOk(es[i])) && Begins(p, at, end, EncodeAll(es))
    ensures Fitting(es, end - at) <= |es| && Walk(p, at, end, f) == Seen(es[..Fitting(es, end - at)], f)
    decreases |es|
  {
    if es == [] {
      assert end == at;
    } else {
      var next := at + 4 + |es[0].data|;
      WalkFirst(p, at, end, es, f, next);
      SeenFirst(es, end - at, f);
      if next <= end {
        WalkSees(p, next, end, es[1..], Noted(f, es[0].kind, es[0].data));
      }
    }
  }

  // ---- the whole record ----

  function OpeningSize(h: Hello): nat {
    49 + |h.session| + |h.ciphers| + |h.compression|
  }

  /** Where the parser looks for each length, it finds the right one. */
  predicate FieldsOk(h: Hello, extensions: nat, o: Bytes) {
    var s, c, k := |h.session|, |h.ciphers|, |h.compression|;
    && |o| == OpeningSize(h) && At(o, 5) == 1
    && U16(o, 3) == 44 + s + c + k + extensions && U24(o, 6) == 40 + s + c + k + extensions
    && At(o, 43) == s && U16(o, 44 + s) == c && At(o, 46 + s + c) == k && U16(o, 47 + s + c + k) == extensions
  }

  lemma ShortReads(p: Bytes, at: nat, v: Bytes, rest: Bytes)
    requires |v| < 256 && Reads(p, at, Short(v, rest))
    ensures |Short(v, rest)| == 1 + |v| + |rest| && At(p, at) == |v| && Reads(p, at + 1 + |v|, rest)
  {
    ReadsParts(p, at, B8(|v|), v + rest);
    ReadsByte(p, at, |v|);
    ReadsParts(p, at + 1, v, rest);
  }

  lemma LongReads(p: Bytes, at: nat, v: Bytes, rest: Bytes)
    requires |v| < 65536 && Reads(p, at, Long(v, rest))
    ensures |Long(v, rest)| == 2 + |v| + |rest| && U16(p, at) == |v| && Reads(p, at + 2 + |v|, rest)
  {
    ReadsParts(p, at, B16(|v|), v + rest);
    ReadsU16(p, at, |v|);
    ReadsParts(p, at + 2, v, rest);
  }

  lemma HeadedReads(p: Bytes, body: nat, rest: Bytes)
    requires body + 4 < 65536 && Reads(p, 0, Headed(body, rest))
    ensures |Headed(body, rest)| == 9 + |rest|
    ensures U16(p, 3) == 4 + body && At(p, 5) == 1 && U24(p, 6) == body && Reads(p, 9, rest)
  {
    ReadsParts(p, 0, [22, 3, 1], B16(4 + body) + (B8(1) + (B24(body) + rest)));
    ReadsParts(p, 3, B16(4 + body), B8(1) + (B24(body) + rest));
    ReadsU16(p, 3, 4 + body);
    ReadsParts(p, 5, B8(1), B24(body) + rest);
    ReadsByte(p, 5, 1);
    ReadsParts(p, 6, B24(body), rest);
    ReadsU24(p, 6, body);
  }

  lemma VectorsRead(o: Bytes, at: nat, session: Bytes, ciphers: Bytes, compression: Bytes, extensions: nat)
    requires |session| < 256 && |ciphers| < 65536 && |compression| < 256 && extensions < 65536
    requires Reads(o, at, Short(session, Long(ciphers, Short(compression, B16(extensions)))))
    ensures var s, c, k := |session|, |ciphers|, |compression|;
      && |Short(session, Long(ciphers, Short(compression, B16(extensions))))| == 6 + s + c + k <= |o| - at
      && At(o, at) == s && U16(o, at + 1 + s) == c && At(o, at + 3 + s + c) == k && U16(o, at + 4 + s + c + k) == extensions
  {
    var last := Short(compression, B16(extensions));
    ShortReads(o, at, session, Long(ciphers, last));
    LongReads(o, at + 1 + |session|, ciphers, last);
    ShortReads(o, at + 3 + |session| + |ciphers|, compression, B16(extensions));
    ReadsU16(o, at + 4 + |session| + |ciphers| + |compression|, extensions);
  }

  lemma HeadReads(o: Bytes, body: nat, fixed: Bytes, vectors: Bytes)
    requires body + 4 < 65536 && |fixed| == 34 && o == Headed(body, fixed + vectors)
    ensures |o| == 43 + |vectors| && U16(o, 3) == 4 + body && At(o, 5) == 1 && U24(o, 6) == body && Reads(o, 43, vectors)
  {
    ReadsSelf(o);
    HeadedReads(o, body, fixed + vectors);
    ReadsParts(o, 9, fixed, vectors);
  }

  lemma VectorFields(h: Hello, extensions: nat, o: Bytes, vectors: Bytes)
    requires |h.session| < 256 && |h.ciphers| < 65536 && |h.compression| < 256 && extensions < 65536
    requires vectors == Short(h.session, Long(h.ciphers, Short(h.compression, B16(extensions))))
    requires |o| == 43 + |vectors| && Reads(o, 43, vectors)
    requires var body := 40 + |h.session| + |h.ciphers| + |h.compression| + extensions;
             U16(o, 3) == 4 + body && At(o, 5) == 1 && U24(o, 6) == body
    ensures FieldsOk(h, extensions, o)
  {
    VectorsRead(o, 43, h.session, h.ciphers, h.compression, extensions);
  }

  lemma OpeningFields(h: Hello, extensions: nat, o: Bytes)
    requires |h.session| < 256 && |h.ciphers| < 65536 && |h.compression| < 256 && extensions < 65536
    requires |h.version| == 2 && |h.random| == 32 && 44 + |h.session| + |h.ciphers| + |h.compression| + extensions < 65536
    requires o == Opening(h, extensions)
    ensures FieldsOk(h, extensions, o)
  {
    var vectors := Short(h.session, Long(h.ciphers, Short(h.compression, B16(extensions))));
    HeadReads(o, 40 + |h.session| + |h.ciphers| + |h.compression| + extensions, h.version + h.random, vectors);
    VectorFields(h, extensions, o, vectors);
  }

  /** p and the opening o agree as far as both go. */
  predicate Agree(p: Bytes, o: Bytes) {
    forall k | 0 <= k < |p| && k < |o| :: p[k] == o[k]
  }

  lemma AgreeReads(p: Bytes, o: Bytes)
    requires Agree(p, o)
    ensures forall k: nat | k < |p| && k < |o| :: At(p, k) == At(o, k)
    ensures forall k: nat | k + 2 <= |p| && k + 2 <= |o| :: U16(p, k) == U16(o, k)
    ensures forall k: nat | k + 3 <= |p| && k + 3 <= |o| :: U24(p, k) == U24(o, k)
  {
  }

  /** Every length in place, the extensions are found as soon as the record reaches them, up to where it is cut. */
  lemma ExtensionsFound(h: Hello, extensions: nat, o: Bytes, p: Bytes)
    requires FieldsOk(h, extensions, o) && Agree(p, o)
    ensures ExtensionsOf(p) == if |p| < OpeningSize(h) then None
                               else Some(Span(OpeningSize(h), Min(|p|, OpeningSize(h) + extensions)))
  {
    AgreeReads(p, o);
  }

  /** p is the beginning of o, then the extensions x, then anything. */
  lemma PrefixOf(p: Bytes, o: Bytes, x: Bytes, tail: Bytes)
    requires |p| <= |o + x + tail| && p == (o + x + tail)[..|p|]
    ensures Agree(p, o)
    ensures |p| >= |o| ==> Begins(p, |o|, Min(|p|, |o| + |x|), x)
  {
    var all := o + x + tail;
    if |p| >= |o| {
      var end := Min(|p|, |o| + |x|);
      var left, want := p[|o|..end], x[..end - |o|];
      forall k | 0 <= k < |left| ensures left[k] == want[k] {
        assert p[|o| + k] == all[|o| + k];
      }
      assert left == want;
    }
  }

  /**
   * The parser finds in any prefix of an encoded hello, followed by anything or not, exactly what the extensions
   * complete within the prefix say.
   */
  lemma ParseSees(h: Hello, tail: Bytes, p: Bytes)
    requires HelloOk(h) && |p| <= |Encode(h) + tail| && p == (Encode(h) + tail)[..|p|]
    ensures |p| < OpeningSize(h) ==> Parse(p) == NOTHING
    ensures |p| >= OpeningSize(h) ==>
              var n := Fitting(h.extensions, Min(|p| - OpeningSize(h), |EncodeAll(h.extensions)|));
              n <= |h.extensions| && Parse(p) == Seen(h.extensions[..n], NOTHING)
  {
    var x := EncodeAll(h.extensions);
    var o := Opening(h, |x|);
    OpeningFields(h, |x|, o);
    PrefixOf(p, o, x, tail);
    ExtensionsFound(h, |x|, o, p);
    if |p| >= |o| {
      WalkSees(p, |o|, Min(|p|, |o| + |x|), h.extensions, NOTHING);
    }
  }

  // ---- what a well-formed hello says ----

  predicate HasKind(es: seq<Extension>, kind: nat) {
    exists i :: 0 <= i < |es| && es[i].kind == kind
  }

  /** Wherever they stand among the extensions, the server name is host and the protocols are names. */
  predicate Advertises(es: seq<Extension>, host: Bytes, names: seq<Bytes>) {
    && |host| + 3 < 65536 && (forall i | 0 <= i < |names| :: NameOk(names[i])) && |NameList(names)| < 65536
    && forall i | 0 <= i < |es| ::
         (es[i].kind == 0 ==> es[i].data == SniData(host)) && (es[i].kind == 16 ==> es[i].data == AlpnData(names))
  }

  lemma {:induction false} SeenMeans(es: seq<Extension>, host: Bytes, names: seq<Bytes>, f: Found)
    requires Advertises(es, host, names)
    ensures Seen(es, f) == Found(if HasKind(es, 0) && host != [] then host else f.host, if HasKind(es, 16) then names else f.alpn)
    decreases |es|
  {
    if es != [] {
      ServerNameRoundTrip(host);
      ProtocolsRoundTrip(names);
      SeenMeans(es[1..], host, names, Noted(f, es[0].kind, es[0].data));
      KindsSplit(es, 0);
      KindsSplit(es, 16);
    }
  }

  lemma KindsSplit(es: seq<Extension>, kind: nat)
    requires es != []
    ensures HasKind(es, kind) <==> es[0].kind == kind || HasKind(es[1..], kind)
  {
    if i :| 0 <= i < |es| && es[i].kind == kind {
      assert i == 0 || es[1..][i - 1].kind == kind;
    }
    if i :| 0 <= i < |es[1..]| && es[1..][i].kind == kind {
      assert es[i + 1].kind == kind;
    }
  }

  lemma {:induction false} AllFit(es: seq<Extension>)
    requires forall i | 0 <= i < |es| :: ExtensionOk(es[i])
    ensures Fitting(es, |EncodeAll(es)|) == |es|
    decreases |es|
  {
    if es != [] {
      assert ExtensionOk(es[0]);
      AllFit(es[1..]);
    }
  }

  /** A complete hello in one record, followed by anything: the parser returns its server name and protocols. */
  lemma RoundTrip(h: Hello, host: Bytes, names: seq<Bytes>, tail: Bytes)
    requires HelloOk(h) && Advertises(h.extensions, host, names)
    ensures Parse(Encode(h) + tail) == Found(if HasKind(h.extensions, 0) then host else [], if HasKind(h.extensions, 16) then names else [])
  {
    var p := Encode(h) + tail;
    assert p == p[..|p|];
    ParseSees(h, tail, p);
    AllFit(h.extensions);
    OpeningFields(h, |EncodeAll(h.extensions)|, Opening(h, |EncodeAll(h.extensions)|));
    assert h.extensions[..|h.extensions|] == h.extensions;
    SeenMeans(h.extensions, host, names, NOTHING);
  }

  /** A hello cut anywhere: the true name or none, the true protocols or none, never wrong ones. */
  lemma TruncatedNeverWrong(h: Hello, host: Bytes, names: seq<Bytes>, p: Bytes)
    requires HelloOk(h) && Advertises(h.extensions, host, names) && p <= Encode(h)
    ensures Parse(p).host in {[], host} && Parse(p).alpn in {[], names}
  {
    assert Encode(h) + [] == Encode(h);
    ParseSees(h, [], p);
    if |p| >= OpeningSize(h) {
      var n := Fitting(h.extensions, Min(|p| - OpeningSize(h), |EncodeAll(h.extensions)|));
      SeenMeans(h.extensions[..n], host, names, NOTHING);
    }
  }
}
