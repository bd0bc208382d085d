/** Percent-encoded form bodies (RFC 3986, sections 2.1 and 2.3), and reading them back. */
module FormBody {
  import opened Prelude
  import opened Text

  /** A byte, written as the character of that number. */
  type Byte = c: char | c < '\U{100}'

  predicate IsUnreserved(c: char) {
    'A' <= c <= 'Z' || 'a' <= c <= 'z' || '0' <= c <= '9' || c == '-' || c == '_' || c == '.' || c == '~'
  }

  predicate IsUpperHex(c: char) {
    '0' <= c <= '9' || 'A' <= c <= 'F'
  }

  function HexDigit(v: nat): (c: char)
    requires v < 16
    ensures IsUpperHex(c)
  {
    if v < 10 then '0' + v as char else 'A' + (v - 10) as char
  }

  function HexValue(c: char): (v: nat)
    requires IsUpperHex(c)
    ensures v < 16
  {
    if c <= '9' then (c - '0') as nat else (c - 'A') as nat + 10
  }

  function EncodeByte(b: Byte): string {
    if IsUnreserved(b) then [b] else ['%', HexDigit(b as nat / 16), HexDigit(b as nat % 16)]
  }

  function Encode(s: seq<Byte>): string {
    if s == [] then "" else EncodeByte(s[0]) + Encode(s[1..])
  }

  lemma {:induction false} EncodeSnoc(s: seq<Byte>, b: Byte)
    ensures Encode(s + [b]) == Encode(s) + EncodeByte(b)
  {
    hide EncodeByte;
    if s == [] {
      assert (s + [b])[1..] == [];
    } else {
      EncodeSnoc(s[1..], b);
      assert (s + [b])[1..] == s[1..] + [b];
    }
  }

  method UrlEncoded(s: seq<Byte>) returns (result: string)
    ensures result == Encode(s)
  {
    hide Encode;
    result := "";
    EncodeNothing();
    for i := 0 to |s|
      invariant result == Encode(s[..i])
    {
      EncodeSnoc(s[..i], s[i]);
      assert s[..i + 1] == s[..i] + [s[i]];
      if IsUnreserved(s[i]) {
        result := result + [s[i]];
      } else {
        result := result + ['%', HexDigit(s[i] as nat / 16), HexDigit(s[i] as nat % 16)];
      }
    }
    assert s[..|s|] == s;
  }

  lemma EncodeNothing()
    ensures forall s: seq<Byte> :: s == [] ==> Encode(s) == ""
  {
  }

  /** Reading percent-encoded bytes back; None when a `%` lacks its two digits. */
  function Decode(s: string): Option<seq<char>> {
    if s == "" then Some([])
    else if s[0] == '%' then
      if |s| < 3 || !IsUpperHex(s[1]) || !IsUpperHex(s[2]) then None
      else
        match Decode(s[3..])
        case None => None
        case Some(rest) => Some([(16 * HexValue(s[1]) + HexValue(s[2])) as char] + rest)
    else
      match Decode(s[1..])
      case None => None
      case Some(rest) => Some([s[0]] + rest)
  }

  lemma {:induction false} DecodeEncodes(s: seq<Byte>)
    ensures Decode(Encode(s)) == Some(s)
  {
    if s == [] {
    } else {
      DecodeEncodes(s[1..]);
      var b, rest := s[0], Encode(s[1..]);
      assert s == [b] + s[1..];
      if IsUnreserved(b) {
        assert Encode(s)[1..] == rest;
      } else {
        var high, low := b as nat / 16, b as nat % 16;
        assert Encode(s)[3..] == rest;
        assert Encode(s)[1] == HexDigit(high) && Encode(s)[2] == HexDigit(low);
        assert HexValue(HexDigit(high)) == high && HexValue(HexDigit(low)) == low;
        assert 16 * high + low == b as nat;
      }
    }
  }

  /** Unreserved characters and `%` with two upper-case hexadecimal digits, nothing else. */
  predicate WellEncoded(s: string) {
    s == ""
    || (IsUnreserved(s[0]) && WellEncoded(s[1..]))
    || (|s| >= 3 && s[0] == '%' && IsUpperHex(s[1]) && IsUpperHex(s[2]) && WellEncoded(s[3..]))
  }

  lemma {:induction false} EncodedIsWellEncoded(s: seq<Byte>)
    ensures WellEncoded(Encode(s))
    ensures '&' !in Encode(s) && '=' !in Encode(s)
  {
    if s == [] {
    } else {
      EncodedIsWellEncoded(s[1..]);
      var rest := Encode(s[1..]);
      if IsUnreserved(s[0]) {
        assert Encode(s)[1..] == rest;
      } else {
        assert Encode(s)[3..] == rest;
      }
    }
  }

  /** A parameter, left out of the body when it has no value. */
  datatype Param = Param(key: string, value: Option<seq<Byte>>)

  function Pair(key: string, value: seq<Byte>): string {
    key + "=" + Encode(value)
  }

  function Present(params: seq<Param>): (r: seq<(string, seq<Byte>)>)
    ensures |r| <= |params|
  {
    if params == [] then []
    else
      var n := |params| - 1;
      Present(params[..n])
      + match params[n].value
        case None => []
        case Some(value) => [(params[n].key, value)]
  }

  function Pairs(present: seq<(string, seq<Byte>)>): (r: seq<string>)
    ensures |r| == |present| && forall i :: 0 <= i < |r| ==> r[i] == Pair(present[i].0, present[i].1)
  {
    seq(|present|, i requires 0 <= i < |present| => Pair(present[i].0, present[i].1))
  }

  function Body(params: seq<Param>): string {
    Join(Pairs(Present(params)), "&")
  }

  lemma BodyStep(params: seq<Param>, i: nat)
    requires i < |params|
    ensures params[i].value.None? ==> Body(params[..i + 1]) == Body(params[..i])
    ensures params[i].value.Some? ==>
      Body(params[..i + 1]) ==
        (if Body(params[..i]) == "" then "" else Body(params[..i]) + "&") + Pair(params[i].key, params[i].value.value)
  {
    hide Pair;
    assert params[..i + 1][..i] == params[..i];
    var before := Present(params[..i]);
    assert before + [] == before;
    BodyEmpty(before);
    if params[i].value.Some? {
      var pair := (params[i].key, params[i].value.value);
      assert Present(params[..i + 1]) == before + [pair];
      assert Pairs(before + [pair]) == Pairs(before) + [Pair(pair.0, pair.1)];
      if before == [] {
        assert Pairs(before) == [];
      } else {
        JoinSnoc(Pairs(before), Pair(pair.0, pair.1), "&");
      }
    }
  }

  lemma BodyEmpty(present: seq<(string, seq<Byte>)>)
    ensures Join(Pairs(present), "&") == "" <==> present == []
  {
    if present != [] {
      assert Pairs(present)[0] != "";
    }
  }

  method BuildFormBody(params: seq<Param>) returns (body: string)
    ensures body == Body(params)
  {
    hide Body, Encode;
    body := "";
    NoParams(params);
    for i := 0 to |params|
      invariant body == Body(params[..i])
    {
      BodyStep(params, i);
      if params[i].value.None? {
        continue;
      }
      if body != "" {
        body := body + "&";
      }
      var encoded := UrlEncoded(params[i].value.value);
      body := body + params[i].key + "=" + encoded;
      Regroup(if Body(params[..i]) == "" then "" else Body(params[..i]) + "&", params[i].key, encoded);
    }
    assert params[..|params|] == params;
  }

  lemma Regroup(before: string, key: string, encoded: string)
    ensures before + key + "=" + encoded == before + (key + "=" + encoded)
  {
  }

  lemma NoParams(params: seq<Param>)
    ensures Body(params[..0]) == ""
  {
  }

  // --- Reading a body back ------------------------------------------------------------

  /** Splitting at `&` and the first `=`, and decoding the values. */
  function ParsePairs(parts: seq<string>): Option<seq<(string, seq<char>)>> {
    if parts == [] then Some([])
    else
      match SplitOnce(parts[0], '=')
      case None => None
      case Some((key, encoded)) =>
        match Decode(encoded)
        case None => None
        case Some(value) =>
          match ParsePairs(parts[1..])
          case None => None
          case Some(rest) => Some([(key, value)] + rest)
  }

  function Parse(body: string): Option<seq<(string, seq<char>)>> {
    if body == "" then Some([]) else ParsePairs(Split(body, "&"))
  }

  predicate PlainKeys(present: seq<(string, seq<char>)>) {
    forall p :: p in present ==> '&' !in p.0 && '=' !in p.0
  }

  /** No key that was read holds a separator. */
  lemma {:induction false} ReadKeysArePlain(parts: seq<string>)
    requires forall p :: p in parts ==> '&' !in p
    ensures ParsePairs(parts).Some? ==> PlainKeys(ParsePairs(parts).value)
  {
    hide Decode;
    if parts == [] {
    } else {
      assert parts[0] in parts;
      ReadKeysArePlain(parts[1..]);
      var pair := SplitOnce(parts[0], '=');
      assert pair.Some? ==> forall c :: c in pair.value.0 ==> c in parts[0];
    }
  }

  lemma PairReads(key: string, value: seq<Byte>)
    requires '&' !in key && '=' !in key
    ensures '&' !in Pair(key, value)
    ensures SplitOnce(Pair(key, value), '=') == Some((key, Encode(value))) && Decode(Encode(value)) == Some(value)
  {
    hide Encode, Decode;
    EncodedIsWellEncoded(value);
    DecodeEncodes(value);
    SplitOnceAt(key, '=', Encode(value));
  }

  lemma {:induction false} PairsRead(present: seq<(string, seq<Byte>)>)
    requires PlainKeys(present)
    ensures ParsePairs(Pairs(present)) == Some(present)
  {
    hide Pair, Encode, Decode, SplitOnce;
    if present == [] {
    } else {
      assert present[0] in present;
      PairReads(present[0].0, present[0].1);
      PairsRead(present[1..]);
      assert Pairs(present)[1..] == Pairs(present[1..]);
      assert present == [(present[0].0, present[0].1)] + present[1..];
    }
  }

  /** The receiver gets exactly the parameters that are present, in order, for all bytes,
    * if and only if their keys hold no separator. */
  lemma BodyParsesToPresent(params: seq<Param>)
    ensures Parse(Body(params)) == Some(Present(params)) <==> PlainKeys(Present(params))
  {
    hide Pair, ParsePairs, Split, Join;
    var present := Present(params);
    BodyEmpty(present);
    if present != [] {
      PiecesHaveNoAmpersand(Body(params));
      ReadKeysArePlain(Split(Body(params), "&"));
      if PlainKeys(present) {
        forall i | 0 <= i < |present| ensures '&' !in Pairs(present)[i] {
          assert present[i] in present;
          PairReads(present[i].0, present[i].1);
        }
        SplitJoinChar(Pairs(present), '&');
        PairsRead(present);
      }
    }
  }

  lemma PiecesHaveNoAmpersand(body: string)
    ensures forall p :: p in Split(body, "&") ==> '&' !in p
  {
    SplitPieces(body, "&");
    forall p | p in Split(body, "&") ensures '&' !in p {
      CharContains(p, '&');
    }
  }

  /** The unreserved characters of RFC 3986, section 2.3. */
  predicate StandsForItself(c: char) {
    'A' <= c <= 'Z' || 'a' <= c <= 'z' || '0' <= c <= '9' || c == '-' || c == '_' || c == '.' || c == '~'
  }

  /** A byte sequence is encoded as it is if and only if all of it is unreserved. */
  lemma {:induction false} UnreservedIsVerbatim(s: seq<Byte>)
    ensures Encode(s) == s <==> forall i :: 0 <= i < |s| ==> StandsForItself(s[i])
    ensures |Encode(s)| >= |s|
  {
    if s == [] {
    } else {
      var rest := s[1..];
      UnreservedIsVerbatim(rest);
      assert IsUnreserved(s[0]) <==> StandsForItself(s[0]);
      assert forall i :: 0 <= i < |rest| ==> rest[i] == s[i + 1];
      hide StandsForItself, IsUnreserved;
      if IsUnreserved(s[0]) {
        assert Encode(s)[1..] == Encode(rest) && Encode(s)[0] == s[0];
        if Encode(s) == s {
          assert Encode(s)[1..] == s[1..];
        }
        if Encode(rest) == rest {
          assert Encode(s) == s;
        }
        assert forall i :: 0 < i < |s| ==> s[i] == rest[i - 1];
      } else {
        assert |Encode(s)| > |s|;
      }
    }
  }
}
