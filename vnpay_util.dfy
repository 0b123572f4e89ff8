/** The VNPay helpers: lowercase hex around the HMAC-SHA512 (RFC 2104 over
    FIPS 180-4) tag, `application/x-www-form-urlencoded` encoding as
    `java.net.URLEncoder` produces it with the US-ASCII charset (section
    17.13.4.1 of HTML 4.01), the canonical string the signature is computed
    over, the client address and the random digit string. The MAC itself is a
    parameter: any function from key and data to bytes. */
module VNPayUtil {
  import opened Common
  import opened JavaLang

  newtype byte = x: int | 0 <= x < 256

  // ---------------------------------------------------------------------------
  // Hex encoding of the MAC

  function LowerHexDigit(d: nat): (c: char)
    requires d < 16
    ensures '0' <= c <= '9' || 'a' <= c <= 'f'
  {
    if d < 10 then ('0' as int + d) as char else ('a' as int + d - 10) as char
  }

  /** `Integer.toHexString(0xff & b)`: lowercase, without leading zeros. */
  function ToHexString(b: byte): (s: string)
    ensures |s| == 1 <==> b < 16
    ensures 1 <= |s| <= 2
  {
    if b < 16 then [LowerHexDigit(b as nat)]
    else [LowerHexDigit(b as nat / 16), LowerHexDigit(b as nat % 16)]
  }

  /** The two lowercase hex digits of a byte. */
  function HexByte(b: byte): string
  {
    [LowerHexDigit(b as nat / 16), LowerHexDigit(b as nat % 16)]
  }

  /** The lowercase hex encoding of a byte string, two digits per byte. */
  function Hex(bs: seq<byte>): string
  {
    if bs == [] then "" else Hex(bs[..|bs| - 1]) + HexByte(bs[|bs| - 1])
  }

  /** The hex string has two characters per byte, each a lowercase hex digit,
      and its characters `2i` and `2i+1` spell byte `i`. */
  lemma {:induction false} HexShape(bs: seq<byte>)
    ensures |Hex(bs)| == 2 * |bs|
    ensures forall j :: 0 <= j < |Hex(bs)| ==> '0' <= Hex(bs)[j] <= '9' || 'a' <= Hex(bs)[j] <= 'f'
    ensures forall i :: 0 <= i < |bs| ==> Hex(bs)[2 * i..2 * i + 2] == HexByte(bs[i])
  {
    if bs != [] {
      var init := bs[..|bs| - 1];
      HexShape(init);
      forall i | 0 <= i < |bs| ensures Hex(bs)[2 * i..2 * i + 2] == HexByte(bs[i]) {
        if i < |init| {
          assert Hex(bs)[2 * i..2 * i + 2] == Hex(init)[2 * i..2 * i + 2];
          assert init[i] == bs[i];
        }
      }
    }
  }

  lemma HexByteInjective(a: byte, b: byte)
    requires HexByte(a) == HexByte(b)
    ensures a == b
  {
    assert LowerHexDigit(a as nat / 16) == LowerHexDigit(b as nat / 16);
    assert LowerHexDigit(a as nat % 16) == LowerHexDigit(b as nat % 16);
  }

  /** Different tags give different hex strings: nothing is lost. */
  lemma HexInjective(a: seq<byte>, b: seq<byte>)
    requires Hex(a) == Hex(b)
    ensures a == b
  {
    HexShape(a);
    HexShape(b);
    forall i | 0 <= i < |a| ensures a[i] == b[i] {
      HexByteInjective(a[i], b[i]);
    }
  }

  /** The loop of `hmacSHA512` after the MAC: `toHexString` of each byte,
      padded with a '0' when it is one digit long. */
  method HexEncode(hash: seq<byte>) returns (hex: string)
    ensures hex == Hex(hash)
  {
    hex := "";
    for i := 0 to |hash|
      invariant hex == Hex(hash[..i])
    {
      var h := ToHexString(hash[i]);
      if |h| == 1 {
        hex := hex + "0";
      }
      hex := hex + h;
      assert hash[..i + 1][..i] == hash[..i];
    }
    assert hash[..|hash|] == hash;
  }

  /** `hmacSHA512(key, data)`: the hex of the MAC of the data under the key. */
  method HmacSha512(mac: (string, string) -> seq<byte>, key: string, data: string) returns (r: string)
    ensures r == Hex(mac(key, data))
    ensures |r| == 2 * |mac(key, data)|
  {
    r := HexEncode(mac(key, data));
    HexShape(mac(key, data));
  }

  // ---------------------------------------------------------------------------
  // Form encoding

  /** The characters URLEncoder leaves alone. */
  predicate Unreserved(c: char)
  {
    ('a' <= c <= 'z') || ('A' <= c <= 'Z') || ('0' <= c <= '9') || c == '.' || c == '-' || c == '*' || c == '_'
  }

  function UpperHexDigit(d: nat): (c: char)
    requires d < 16
    ensures Unreserved(c)
  {
    if d < 10 then ('0' as int + d) as char else ('A' as int + d - 10) as char
  }

  /** How one character is encoded: kept, a space as '+', any other ASCII
      character as '%' and two uppercase hex digits, and a character outside
      US-ASCII as the encoding of the replacement '?'. */
  function EncodeChar(c: char): string
  {
    if Unreserved(c) then [c]
    else if c == ' ' then "+"
    else if (c as int) < 128 then ['%', UpperHexDigit(c as int / 16), UpperHexDigit(c as int % 16)]
    else "%3F"
  }

  /** `URLEncoder.encode(s, US_ASCII)`. */
  function UrlEncode(s: string): string
  {
    if s == [] then "" else EncodeChar(s[0]) + UrlEncode(s[1..])
  }

  /** The characters an encoded string is made of. */
  predicate FormChar(c: char)
  {
    Unreserved(c) || c == '%' || c == '+'
  }

  /** An encoded value holds only unreserved characters, '%' and '+', so in
      particular never the '&' and '=' of the pair syntax. */
  lemma {:induction false} UrlEncodeFormChars(s: string)
    ensures forall i :: 0 <= i < |UrlEncode(s)| ==> FormChar(UrlEncode(s)[i])
    ensures '&' !in UrlEncode(s) && '=' !in UrlEncode(s)
  {
    if s != [] {
      UrlEncodeFormChars(s[1..]);
      var e := EncodeChar(s[0]);
      assert forall i :: 0 <= i < |e| ==> FormChar(e[i]);
      assert UrlEncode(s) == e + UrlEncode(s[1..]);
    }
  }

  /** A string of unreserved characters is its own encoding. */
  lemma {:induction false} UrlEncodeUnreserved(s: string)
    requires forall i :: 0 <= i < |s| ==> Unreserved(s[i])
    ensures UrlEncode(s) == s
  {
    if s != [] {
      UrlEncodeUnreserved(s[1..]);
      assert s == [s[0]] + s[1..];
    }
  }

  /** The value of a hex digit, either case. */
  function HexValue(c: char): Option<nat>
  {
    if '0' <= c <= '9' then Some(c as nat - '0' as nat)
    else if 'A' <= c <= 'F' then Some(c as nat - 'A' as nat + 10)
    else if 'a' <= c <= 'f' then Some(c as nat - 'a' as nat + 10)
    else None
  }

  /** The form decoder: '+' is a space and "%HH" the character with that code. */
  function UrlDecode(s: string): string
    decreases |s|
  {
    if s == [] then ""
    else if s[0] == '+' then " " + UrlDecode(s[1..])
    else if s[0] == '%' && |s| >= 3 && HexValue(s[1]).Some? && HexValue(s[2]).Some? then
      [(HexValue(s[1]).value * 16 + HexValue(s[2]).value) as char] + UrlDecode(s[3..])
    else [s[0]] + UrlDecode(s[1..])
  }

  lemma DecodeEncodedChar(c: char, t: string)
    requires (c as int) < 128
    ensures UrlDecode(EncodeChar(c) + t) == [c] + UrlDecode(t)
  {
    var e := EncodeChar(c);
    if Unreserved(c) {
      assert (e + t)[1..] == t;
    } else if c == ' ' {
      assert (e + t)[1..] == t;
    } else {
      var hi := c as int / 16;
      var lo := c as int % 16;
      assert HexValue(UpperHexDigit(hi)) == Some(hi);
      assert HexValue(UpperHexDigit(lo)) == Some(lo);
      assert (e + t)[3..] == t;
    }
  }

  /** Decoding undoes the encoding of any US-ASCII string. */
  lemma {:induction false} UrlRoundTrip(s: string)
    requires forall i :: 0 <= i < |s| ==> (s[i] as int) < 128
    ensures UrlDecode(UrlEncode(s)) == s
  {
    if s != [] {
      UrlRoundTrip(s[1..]);
      DecodeEncodedChar(s[0], UrlEncode(s[1..]));
      assert s == [s[0]] + s[1..];
    }
  }

  /** Outside US-ASCII the encoding is lossy: every such character encodes
      like '?', so values that differ only there sign alike. */
  lemma NonAsciiEncodesAsQuestionMark(c: char)
    requires (c as int) >= 128
    ensures EncodeChar(c) == EncodeChar('?')
    ensures UrlDecode(UrlEncode([c])) == "?"
  {
    assert UrlEncode([c]) == EncodeChar(c) + UrlEncode([]);
    DecodeEncodedChar('?', "");
  }

  // ---------------------------------------------------------------------------
  // The canonical string the signature covers

  /** The text of one field in the signed data. */
  function Pair(key: string, value: string): string
  {
    key + "=" + UrlEncode(value)
  }

  predicate KeysIn(keys: seq<string>, fields: map<string, string>)
  {
    forall i :: 0 <= i < |keys| ==> keys[i] in fields
  }

  /** The pairs of the fields listed in `keys` whose value is non-empty, in
      the order of `keys`. */
  function PairsOf(keys: seq<string>, fields: map<string, string>): seq<string>
    requires KeysIn(keys, fields)
  {
    if keys == [] then []
    else
      var k := keys[|keys| - 1];
      PairsOf(keys[..|keys| - 1], fields) + (if fields[k] != "" then [Pair(k, fields[k])] else [])
  }

  /** Every part followed by '&', as the loop of `hashAllFields` builds it. */
  function Terminated(parts: seq<string>): string
  {
    if parts == [] then "" else Terminated(parts[..|parts| - 1]) + parts[|parts| - 1] + "&"
  }

  lemma {:induction false} TerminatedJoin(parts: seq<string>)
    requires parts != []
    ensures Terminated(parts) == Join(parts, "&") + "&"
  {
    var init := parts[..|parts| - 1];
    if init == [] {
      assert parts == [parts[0]];
    } else {
      TerminatedJoin(init);
      JoinSnoc(init, parts[|parts| - 1], "&");
      assert init + [parts[|parts| - 1]] == parts;
    }
  }

  /** The fields whose value is non-empty. */
  function Filled(fields: map<string, string>): set<string>
  {
    set k | k in fields && fields[k] != ""
  }

  /** The string `hashAllFields` returns: the non-empty fields in ascending
      key order as `key=encoded value`, joined by single '&'; it throws when
      there is no such field. */
  ghost function Canonical(fields: map<string, string>): Result<string>
  {
    var ps := PairsOf(SortedKeys(fields.Keys), fields);
    if ps == [] then Err("StringIndexOutOfBoundsException") else Ok(Join(ps, "&"))
  }

  lemma PairsOfStep(keys: seq<string>, i: nat, fields: map<string, string>)
    requires i < |keys| && KeysIn(keys, fields)
    ensures KeysIn(keys[..i], fields) && KeysIn(keys[..i + 1], fields)
    ensures PairsOf(keys[..i + 1], fields)
            == PairsOf(keys[..i], fields) + (if fields[keys[i]] != "" then [Pair(keys[i], fields[keys[i]])] else [])
  {
    assert keys[..i + 1][..i] == keys[..i];
  }

  lemma TerminatedSnoc(parts: seq<string>, p: string)
    ensures Terminated(parts + [p]) == Terminated(parts) + p + "&"
  {
    assert (parts + [p])[..|parts|] == parts;
  }

  lemma TerminatedEmpty(parts: seq<string>)
    ensures |Terminated(parts)| == 0 <==> parts == []
  {
    if parts != [] {
      assert Terminated(parts) == Terminated(parts[..|parts| - 1]) + parts[|parts| - 1] + "&";
    }
  }

  /** The loop of `hashAllFields`: each non-empty field as `key=value&`, in
      the order of `fieldNames`. */
  method AppendPairs(fieldNames: seq<string>, fields: map<string, string>) returns (hashData: string)
    requires KeysIn(fieldNames, fields)
    ensures hashData == Terminated(PairsOf(fieldNames, fields))
  {
    hashData := "";
    for i := 0 to |fieldNames|
      invariant hashData == Terminated(PairsOf(fieldNames[..i], fields))
    {
      var fieldValue := fields[fieldNames[i]];
      PairsOfStep(fieldNames, i, fields);
      if fieldValue != "" {
        TerminatedSnoc(PairsOf(fieldNames[..i], fields), Pair(fieldNames[i], fieldValue));
        hashData := hashData + Pair(fieldNames[i], fieldValue) + "&";
      } else {
        assert PairsOf(fieldNames[..i + 1], fields) == PairsOf(fieldNames[..i], fields);
      }
    }
    assert fieldNames[..|fieldNames|] == fieldNames;
  }

  /** `hashAllFields`: the pairs in ascending key order with the last '&'
      cut off; with no non-empty field the cut throws. */
  method HashAllFields(fields: map<string, string>) returns (r: Result<string>)
    ensures r == Canonical(fields)
  {
    var fieldNames := SortKeys(fields.Keys);
    SortedKeysIn(fields.Keys, fields);
    var hashData := AppendPairs(fieldNames, fields);
    var ps := PairsOf(fieldNames, fields);
    TerminatedEmpty(ps);
    if |hashData| == 0 {
      return Err("StringIndexOutOfBoundsException");
    }
    TerminatedJoin(ps);
    r := Ok(hashData[..|hashData| - 1]);
  }

  /** The keys among `keys` whose value is non-empty, in order. */
  function FilledKeys(keys: seq<string>, fields: map<string, string>): (r: seq<string>)
    requires KeysIn(keys, fields)
    ensures KeysIn(r, fields)
  {
    if keys == [] then []
    else
      var k := keys[|keys| - 1];
      FilledKeys(keys[..|keys| - 1], fields) + (if fields[k] != "" then [k] else [])
  }

  /** The pairs of the keys, in the same order. */
  function Render(keys: seq<string>, fields: map<string, string>): (r: seq<string>)
    requires KeysIn(keys, fields)
    ensures |r| == |keys|
  {
    if keys == [] then [] else Render(keys[..|keys| - 1], fields) + [Pair(keys[|keys| - 1], fields[keys[|keys| - 1]])]
  }

  lemma {:induction false} FilledKeysElems(keys: seq<string>, fields: map<string, string>)
    requires KeysIn(keys, fields)
    ensures forall k :: k in FilledKeys(keys, fields) <==> k in keys && fields[k] != ""
  {
    if keys != [] {
      FilledKeysElems(keys[..|keys| - 1], fields);
      assert keys == keys[..|keys| - 1] + [keys[|keys| - 1]];
    }
  }

  lemma SortedKeysIn(ks: set<string>, fields: map<string, string>)
    requires ks <= fields.Keys
    ensures KeysIn(SortedKeys(ks), fields)
  {
    var r := SortedKeys(ks);
    assert forall i :: 0 <= i < |r| ==> r[i] in r;
  }

  lemma {:induction false} PairsOfRender(keys: seq<string>, fields: map<string, string>)
    requires KeysIn(keys, fields)
    ensures PairsOf(keys, fields) == Render(FilledKeys(keys, fields), fields)
  {
    if keys != [] {
      var init := keys[..|keys| - 1];
      PairsOfRender(init, fields);
      var k := keys[|keys| - 1];
      if fields[k] != "" {
        var f := FilledKeys(init, fields);
        assert (f + [k])[..|f|] == f;
        assert FilledKeys(keys, fields) == f + [k];
        assert Render(f + [k], fields) == Render(f, fields) + [Pair(k, fields[k])];
        assert PairsOf(keys, fields) == PairsOf(init, fields) + [Pair(k, fields[k])];
      } else {
        assert FilledKeys(keys, fields) == FilledKeys(init, fields);
        assert PairsOf(keys, fields) == PairsOf(init, fields);
      }
    }
  }

  lemma {:induction false} FilledKeysSorted(keys: seq<string>, fields: map<string, string>)
    requires KeysIn(keys, fields) && StrictlySorted(keys)
    ensures StrictlySorted(FilledKeys(keys, fields))
  {
    if keys != [] {
      var init := keys[..|keys| - 1];
      var k := keys[|keys| - 1];
      FilledKeysSorted(init, fields);
      FilledKeysElems(init, fields);
      var f := FilledKeys(init, fields);
      if fields[k] != "" {
        forall i | 0 <= i < |f| ensures StrLt(f[i], k) {
          assert f[i] in init;
          var j :| 0 <= j < |init| && init[j] == f[i];
          assert keys[j] == f[i];
        }
      }
    }
  }

  /** The canonical string depends only on the non-empty fields: it lists
      exactly those, in ascending key order, and fields with an empty value
      can be added or dropped without changing the signature. */
  lemma CanonicalFields(fields: map<string, string>)
    ensures Filled(fields) == {} ==> Canonical(fields).Err?
    ensures Filled(fields) != {} ==>
      KeysIn(SortedKeys(Filled(fields)), fields)
      && Canonical(fields) == Ok(Join(Render(SortedKeys(Filled(fields)), fields), "&"))
  {
    var keys := SortedKeys(fields.Keys);
    SortedKeysIn(fields.Keys, fields);
    SortedKeysIn(Filled(fields), fields);
    PairsOfRender(keys, fields);
    FilledKeysSorted(keys, fields);
    FilledKeysElems(keys, fields);
    var f := FilledKeys(keys, fields);
    SortedUnique(f, SortedKeys(Filled(fields)));
    if Filled(fields) == {} {
      assert |f| == 0;
    } else {
      var k :| k in Filled(fields);
      assert k in f;
    }
  }

  /** Dropping the fields with empty values leaves the canonical string as it
      was. */
  lemma CanonicalIgnoresEmpty(fields: map<string, string>)
    ensures Canonical(fields) == Canonical(map k | k in Filled(fields) :: fields[k])
  {
    var g := map k | k in Filled(fields) :: fields[k];
    assert Filled(g) == Filled(fields);
    CanonicalFields(fields);
    CanonicalFields(g);
    if Filled(fields) != {} {
      RenderSame(SortedKeys(Filled(fields)), fields, g);
    }
  }

  lemma {:induction false} RenderSame(keys: seq<string>, f: map<string, string>, g: map<string, string>)
    requires KeysIn(keys, f) && KeysIn(keys, g)
    requires forall i :: 0 <= i < |keys| ==> f[keys[i]] == g[keys[i]]
    ensures Render(keys, f) == Render(keys, g)
  {
    if keys != [] {
      RenderSame(keys[..|keys| - 1], f, g);
    }
  }

  // ---------------------------------------------------------------------------
  // Client address and random digits

  predicate IsLoopbackV6(ip: string)
  {
    ip == "0:0:0:0:0:0:0:1" || ip == "::1"
  }

  /** The address `getIpAddress` reports: the X-FORWARDED-FOR header when
      present, else the remote address, with the IPv6 loopback forms mapped to
      the IPv4 one. */
  function ClientIp(forwardedFor: Option<string>, remoteAddr: string): (ip: string)
    ensures !IsLoopbackV6(ip)
    ensures forwardedFor.Some? && !IsLoopbackV6(forwardedFor.value) ==> ip == forwardedFor.value
    ensures forwardedFor.None? && !IsLoopbackV6(remoteAddr) ==> ip == remoteAddr
    ensures ((forwardedFor.Some? && IsLoopbackV6(forwardedFor.value))
             || (forwardedFor.None? && IsLoopbackV6(remoteAddr))) ==> ip == "127.0.0.1"
  {
    var chosen := if forwardedFor.Some? then forwardedFor.value else remoteAddr;
    if IsLoopbackV6(chosen) then "127.0.0.1" else chosen
  }

  /** `getIpAddress`. */
  method GetIpAddress(forwardedFor: Option<string>, remoteAddr: string) returns (ip: string)
    ensures ip == ClientIp(forwardedFor, remoteAddr)
  {
    ip := if forwardedFor.Some? then forwardedFor.value else "";
    if forwardedFor.None? {
      ip := remoteAddr;
    }
    if ip == "0:0:0:0:0:0:0:1" || ip == "::1" {
      ip := "127.0.0.1";
    }
  }

  /** `getRandomNumber(len)`; `draws` are the successive results of
      `nextInt(10)`. A negative length makes the StringBuilder constructor
      throw. */
  method GetRandomNumber(len: int, draws: seq<int>) returns (r: Result<string>)
    requires len <= |draws|
    requires forall i :: 0 <= i < |draws| ==> 0 <= draws[i] < 10
    ensures len < 0 ==> r == Err("NegativeArraySizeException")
    ensures len >= 0 ==> r.Ok? && |r.value| == len && AllDigits(r.value)
    ensures len >= 0 ==> forall i :: 0 <= i < len ==> r.value[i] == DigitChar(draws[i])
  {
    if len < 0 {
      return Err("NegativeArraySizeException");
    }
    var chars := "0123456789";
    var sb := "";
    for i := 0 to len
      invariant |sb| == i
      invariant forall j :: 0 <= j < i ==> sb[j] == DigitChar(draws[j])
    {
      sb := sb + [chars[draws[i]]];
    }
    r := Ok(sb);
  }
}
