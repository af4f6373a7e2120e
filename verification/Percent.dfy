/** Percent coding (file_utils.cpp; sections 2.1 and 2.3 of RFC 3986), as used for every chat
    text, file name and error reason on the wire. */
module Percent {
  import opened Text

  predicate IsBytes(s: Bytes) { forall i :: 0 <= i < |s| ==> s[i] as int < 256 }

  predicate IsAlnum(c: char) { 'a' <= c <= 'z' || 'A' <= c <= 'Z' || IsDigit(c) }

  predicate Unreserved(c: char) { IsAlnum(c) || c == '-' || c == '_' || c == '.' || c == '~' }

  function HexDigit(n: nat): (c: char)
    requires n < 16
    ensures HexValue(c) == Some(n) && IsAlnum(c)
  {
    if n < 10 then ('0' as int + n) as char else ('A' as int + n - 10) as char
  }

  function HexValue(c: char): (r: Option<nat>)
    ensures r.Some? ==> r.value < 16
  {
    if IsDigit(c) then Some(c as int - '0' as int)
    else if 'a' <= c <= 'f' then Some(10 + c as int - 'a' as int)
    else if 'A' <= c <= 'F' then Some(10 + c as int - 'A' as int)
    else None
  }

  function EncodeByte(c: char): Bytes
    requires c as int < 256
  {
    if Unreserved(c) then [c]
    else ['%', HexDigit(c as int / 16), HexDigit(c as int % 16)]
  }

  /** The encoded form; it uses only unreserved characters and percent signs. */
  function Encode(text: Bytes): (r: Bytes)
    requires IsBytes(text)
    ensures forall i :: 0 <= i < |r| ==> Unreserved(r[i]) || r[i] == '%'
    ensures r == [] <==> text == []
  {
    if text == [] then [] else EncodeByte(text[0]) + Encode(text[1..])
  }

  function Prepend(head: Bytes, tail: Option<Bytes>): Option<Bytes> {
    if tail.None? then None else Some(head + tail.value)
  }

  function Decode(encoded: Bytes): Option<Bytes> {
    if encoded == [] then Some([])
    else if encoded[0] != '%' then Prepend([encoded[0]], Decode(encoded[1..]))
    else if |encoded| < 3 then None
    else
      var high, low := HexValue(encoded[1]), HexValue(encoded[2]);
      if high.None? || low.None? then None
      else Prepend([(16 * high.value + low.value) as char], Decode(encoded[3..]))
  }

  method PercentEncode(text: Bytes) returns (encoded: Bytes)
    requires IsBytes(text)
    ensures encoded == Encode(text)
  {
    encoded := [];
    var i := 0;
    while i < |text|
      invariant i <= |text|
      invariant encoded + Encode(text[i..]) == Encode(text)
    {
      assert text[i..][0] == text[i] && text[i..][1..] == text[i + 1..];
      encoded := encoded + EncodeByte(text[i]);
      i := i + 1;
    }
  }

  method PercentDecode(encoded: Bytes) returns (text: Option<Bytes>)
    ensures text == Decode(encoded)
  {
    var decoded: Bytes := [];
    var i := 0;
    assert encoded[0..] == encoded;
    assert Decode(encoded).Some? ==> [] + Decode(encoded).value == Decode(encoded).value;
    while i < |encoded|
      invariant i <= |encoded|
      invariant Decode(encoded) == Prepend(decoded, Decode(encoded[i..]))
    {
      var rest := encoded[i..];
      if encoded[i] != '%' {
        assert rest[1..] == encoded[i + 1..];
        PrependTwice(decoded, [encoded[i]], Decode(rest[1..]));
        decoded := decoded + [encoded[i]];
        i := i + 1;
      } else {
        if i + 2 >= |encoded| {
          return None;
        }
        var high, low := HexValue(encoded[i + 1]), HexValue(encoded[i + 2]);
        if high.None? || low.None? {
          return None;
        }
        assert rest[3..] == encoded[i + 3..];
        PrependTwice(decoded, [(16 * high.value + low.value) as char], Decode(rest[3..]));
        decoded := decoded + [(16 * high.value + low.value) as char];
        i := i + 3;
      }
    }
    assert decoded + [] == decoded;
    return Some(decoded);
  }

  lemma PrependTwice(a: Bytes, b: Bytes, tail: Option<Bytes>)
    ensures Prepend(a, Prepend(b, tail)) == Prepend(a + b, tail)
  {
    if tail.Some? {
      assert a + (b + tail.value) == a + b + tail.value;
    }
  }

  /** Decoding undoes encoding for every byte string. */
  lemma {:induction false} DecodeEncode(text: Bytes)
    requires IsBytes(text)
    ensures Decode(Encode(text)) == Some(text)
  {
    if text == [] {
    } else {
      var c, rest := text[0], Encode(text[1..]);
      DecodeEncode(text[1..]);
      if Unreserved(c) {
        assert ([c] + rest)[1..] == rest;
      } else {
        var e := EncodeByte(c) + rest;
        assert e[3..] == rest;
        assert 16 * (c as int / 16) + c as int % 16 == c as int;
      }
      assert text == [c] + text[1..];
    }
  }

  /** `decode_text_token` (client_common.cpp): a lone "-" stands for the empty text. */
  function DecodeToken(encoded: Bytes): Option<Bytes> {
    if encoded == "-" then Some([]) else Decode(encoded)
  }

  /** The token round trip fails on exactly one text, the single character "-". */
  lemma TokenRoundTrip(text: Bytes)
    requires IsBytes(text)
    ensures DecodeToken(Encode(text)) == Some(text) <==> text != "-"
  {
    DecodeEncode(text);
    if text == "-" {
      assert text[1..] == [];
      assert Encode(text) == "-";
    } else {
      assert Decode("-") == Prepend("-", Decode(""));
    }
  }

  /** A percent sign without two hex digits behind it cannot be decoded. */
  lemma {:induction false} MalformedRefused(plain: Bytes, rest: Bytes)
    requires '%' !in plain && (|rest| < 2 || HexValue(rest[0]).None? || HexValue(rest[1]).None?)
    ensures Decode(plain + "%" + rest).None?
    decreases |plain|
  {
    var all := plain + "%" + rest;
    if plain == [] {
      assert all[0] == '%' && |all| == 1 + |rest|;
      assert |rest| >= 2 ==> all[1] == rest[0] && all[2] == rest[1];
    } else {
      assert all[0] == plain[0] && all[1..] == plain[1..] + "%" + rest;
      MalformedRefused(plain[1..], rest);
    }
  }

  // ---- file names and digests ---------------------------------------------------------------

  function AfterLastSlash(s: Bytes): Bytes {
    if '/' !in s then s else AfterLastSlash(s[IndexOf(s, '/') + 1..])
  }

  function SafeChar(c: char): char {
    if IsAlnum(c) || c == '.' || c == '_' || c == '-' then c else '_'
  }

  /** `fileutil::sanitize_filename` */
  function SanitizeFilename(filename: Bytes): Bytes {
    var name := AfterLastSlash(filename);
    if name == "" || name == "." || name == ".." then "file.bin"
    else
      var safe := seq(|name|, i requires 0 <= i < |name| => SafeChar(name[i]));
      if |safe| > 180 then safe[..180] else safe
  }

  predicate IsSha256Hex(s: Bytes) {
    |s| == 64 && forall i :: 0 <= i < |s| ==> HexValue(s[i]).Some?
  }

  predicate IsSafe(c: char) { IsAlnum(c) || c == '.' || c == '_' || c == '-' }

  predicate SafeName(s: Bytes) {
    1 <= |s| <= 180 && s != "." && s != ".." && forall i :: 0 <= i < |s| ==> IsSafe(s[i])
  }

  lemma {:induction false} LastPart(dir: Bytes, base: Bytes)
    requires '/' !in base
    ensures AfterLastSlash(base) == base && AfterLastSlash(dir + "/" + base) == base
    decreases |dir|
  {
    var path := dir + "/" + base;
    assert path[|dir|] == '/';
    var n := IndexOf(path, '/');
    assert n <= |dir|;
    if n == |dir| {
      assert path[n + 1..] == base;
    } else {
      assert path[n + 1..] == dir[n + 1..] + "/" + base;
      LastPart(dir[n + 1..], base);
    }
  }

  /** The local name of a file: safe in every case, the name itself when that is safe, and never more
      than the last part of a path. */
  lemma SanitizedName(filename: Bytes)
    ensures SafeName(SanitizeFilename(filename))
    ensures SafeName(filename) ==> SanitizeFilename(filename) == filename
    ensures forall dir :: '/' !in filename ==> SanitizeFilename(dir + "/" + filename) == SanitizeFilename(filename)
  {
    var name := AfterLastSlash(filename);
    var safe := seq(|name|, i requires 0 <= i < |name| => SafeChar(name[i]));
    if name != "" && name != "." && name != ".." {
      SafeKeeps(name, safe);
    } else {
      assert SafeName("file.bin");
    }
    if SafeName(filename) {
      assert '/' !in filename;
      assert name == filename;
      assert safe == filename;
    }
    if '/' !in filename {
      forall dir ensures SanitizeFilename(dir + "/" + filename) == SanitizeFilename(filename) {
        LastPart(dir, filename);
      }
    }
  }

  lemma SafeKeeps(name: Bytes, safe: Bytes)
    requires name != "" && name != "." && name != ".."
    requires |safe| == |name| && forall i :: 0 <= i < |name| ==> safe[i] == SafeChar(name[i])
    ensures SafeName(if |safe| > 180 then safe[..180] else safe)
  {
    assert |name| == 1 ==> name[0] != '.';
    assert |name| == 2 ==> name[0] != '.' || name[1] != '.';
  }
}
