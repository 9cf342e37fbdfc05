/**
 * The agent's parser for the first TLS record of a connection: it looks for the server name and the ALPN
 * protocols of a ClientHello (section 4.1.2 of RFC 8446, section 3 of RFC 6066, section 3.1 of RFC 7301).
 */
module ClientHello {
  import opened Common

  type Byte = b: int | 0 <= b < 256

  type Bytes = seq<Byte>

  /** Host and protocols as found; both empty when there is nothing. */
  datatype Found = Found(host: Bytes, alpn: seq<Bytes>)

  const NOTHING: Found := Found([], [])

  function At(s: Bytes, k: nat): nat
    requires k < |s|
  {
    s[k]
  }

  function U16(s: Bytes, at: nat): nat
    requires at + 2 <= |s|
  {
    At(s, at) * 256 + At(s, at + 1)
  }

  function U24(s: Bytes, at: nat): nat
    requires at + 3 <= |s|
  {
    At(s, at) * 65536 + At(s, at + 1) * 256 + At(s, at + 2)
  }

  // ---- the parser, as functions of the position reached ----

  /** The first host name of a server name list that starts at from. */
  function NameAt(ext: Bytes, from: nat, end: nat): Bytes
    requires end <= |ext|
    decreases end - from
  {
    if from + 3 > end then []
    else
      var n := U16(ext, from + 1);
      if from + 3 + n > end then []
      else if At(ext, from) == 0 then ext[from + 3..from + 3 + n]
      else NameAt(ext, from + 3 + n, end)
  }

  /** Where the list of an extension ends: its own length, cut to the extension. */
  function ListEnd(ext: Bytes): nat
    requires |ext| >= 2
  {
    Min(|ext|, 2 + U16(ext, 0))
  }

  function ServerName(ext: Bytes): Bytes {
    if |ext| < 5 then [] else NameAt(ext, 2, ListEnd(ext))
  }

  function NamesAt(ext: Bytes, from: nat, end: nat): seq<Bytes>
    requires end <= |ext|
    decreases end - from
  {
    if from >= end || At(ext, from) == 0 || from + 1 + At(ext, from) > end then []
    else [ext[from + 1..from + 1 + At(ext, from)]] + NamesAt(ext, from + 1 + At(ext, from), end)
  }

  function Protocols(ext: Bytes): seq<Bytes> {
    if |ext| < 3 then [] else NamesAt(ext, 2, ListEnd(ext))
  }

  function Noted(f: Found, kind: nat, ext: Bytes): Found {
    if kind == 0 && ServerName(ext) != [] then f.(host := ServerName(ext))
    else if kind == 16 then f.(alpn := Protocols(ext))
    else f
  }

  /** The loop over extensions; one that does not fit ends it. */
  function Walk(p: Bytes, from: nat, end: nat, f: Found): Found
    requires end <= |p|
    decreases end - from
  {
    if from + 4 > end then f
    else
      var n := U16(p, from + 2);
      if from + 4 + n > end then f
      else Walk(p, from + 4 + n, end, Noted(f, U16(p, from), p[from + 4..from + 4 + n]))
  }

  datatype Span = Span(from: nat, to: nat)

  function HelloEnd(p: Bytes): int
    requires |p| >= 9
  {
    Min(Min(|p|, 5 + U16(p, 3)), 9 + U24(p, 6))
  }

  /** Where the extensions lie, if everything before them fits. */
  function ExtensionsOf(p: Bytes): (r: Option<Span>)
    ensures r.Some? ==> r.value.from <= r.value.to <= |p|
  {
    if |p| < 9 || 5 + U16(p, 3) < 9 || p[5] != 1 || HelloEnd(p) < 44 then None
    else
      var end := HelloEnd(p);
      var ciphers := 44 + At(p, 43);
      if ciphers + 2 > end then None
      else
        var compression := ciphers + 2 + U16(p, ciphers);
        if compression + 1 > end then None
        else
          var extensions := compression + 1 + At(p, compression);
          if extensions + 2 > end then None
          else Some(Span(extensions + 2, Min(end, extensions + 2 + U16(p, extensions))))
  }

  function Parse(p: Bytes): Found {
    match ExtensionsOf(p)
    case None => NOTHING
    case Some(s) => Walk(p, s.from, s.to, NOTHING)
  }

  // ---- the parser, as the loops of detector.go ----

  method ParseSNIExtension(ext: Bytes) returns (host: Bytes)
    ensures host == ServerName(ext)
  {
    if |ext| < 5 {
      return [];
    }
    var listLen := U16(ext, 0);
    var offset: nat := 2;
    var end := Min(|ext|, offset + listLen);
    while offset + 3 <= end
      invariant 2 <= offset <= end <= |ext| && NameAt(ext, offset, end) == ServerName(ext)
      decreases end - offset
    {
      var nameType := ext[offset];
      var nameLen := U16(ext, offset + 1);
      offset := offset + 3;
      if offset + nameLen > end {
        return [];
      }
      if nameType == 0 {
        return ext[offset..offset + nameLen];
      }
      offset := offset + nameLen;
    }
    return [];
  }

  method ParseALPNExtension(ext: Bytes) returns (values: seq<Bytes>)
    ensures values == Protocols(ext)
  {
    if |ext| < 3 {
      return [];
    }
    var listLen := U16(ext, 0);
    var offset: nat := 2;
    var end := Min(|ext|, offset + listLen);
    values := [];
    while offset < end
      invariant 2 <= offset <= end <= |ext| && values + NamesAt(ext, offset, end) == Protocols(ext)
      decreases end - offset
    {
      var nameLen := At(ext, offset);
      offset := offset + 1;
      if nameLen == 0 || offset + nameLen > end {
        return values;
      }
      values := values + [ext[offset..offset + nameLen]];
      offset := offset + nameLen;
    }
  }

  /** Everything of ParseTLSClientHello up to the extensions. */
  method FindExtensions(p: Bytes) returns (r: Option<Span>)
    ensures r == ExtensionsOf(p)
  {
    if |p| < 9 {
      return None;
    }
    var recordLen := U16(p, 3);
    var recordEnd := Min(|p|, 5 + recordLen);
    if recordEnd < 9 || p[5] != 1 {
      return None;
    }
    var helloLen := U24(p, 6);
    var helloEnd := Min(recordEnd, 9 + helloLen);
    if helloEnd < 9 + 2 + 32 + 1 {
      return None;
    }
    var offset: nat := 9 + 2 + 32;
    var sessionLen := At(p, offset);
    offset := offset + 1;
    if offset + sessionLen + 2 > helloEnd {
      return None;
    }
    offset := offset + sessionLen;
    var cipherLen := U16(p, offset);
    offset := offset + 2;
    if offset + cipherLen + 1 > helloEnd {
      return None;
    }
    offset := offset + cipherLen;
    var compressionLen := At(p, offset);
    offset := offset + 1;
    if offset + compressionLen + 2 > helloEnd {
      return None;
    }
    offset := offset + compressionLen;
    var extensionsLen := U16(p, offset);
    offset := offset + 2;
    return Some(Span(offset, Min(helloEnd, offset + extensionsLen)));
  }

  method ParseTLSClientHello(p: Bytes) returns (host: Bytes, alpn: seq<Bytes>)
    ensures Found(host, alpn) == Parse(p)
  {
    host, alpn := [], [];
    var span := FindExtensions(p);
    if span.None? {
      return;
    }
    var offset, end := span.value.from, span.value.to;
    while offset + 4 <= end
      invariant offset <= end <= |p| && Walk(p, offset, end, Found(host, alpn)) == Parse(p)
      decreases end - offset
    {
      var extType := U16(p, offset);
      var extLen := U16(p, offset + 2);
      offset := offset + 4;
      if offset + extLen > end {
        break;
      }
      var ext := p[offset..offset + extLen];
      if extType == 0 {
        var value := ParseSNIExtension(ext);
        if value != [] {
          host := value;
        }
      } else if extType == 16 {
        alpn := ParseALPNExtension(ext);
      }
      offset := offset + extLen;
    }
  }
}
