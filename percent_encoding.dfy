/**
  The query encoder of WebService.swift: `stringByAddingPercentEncodingForURLQueryValue`
  (percent-escaping per sections 2.1 and 2.3 of RFC 3986, over the UTF-8
  bytes of the string) and `stringFromHttpParameters`, with the decoder and
  the parser that undo them.
 */
module PercentEncoding {
  import opened Wrappers
  import opened Utf8

  /** The unreserved set of section 2.3 of RFC 3986: ASCII letters, digits and `-._~`. */
  predicate IsUnreservedChar(c: char)
  {
    || ('a' <= c <= 'z') || ('A' <= c <= 'Z') || ('0' <= c <= '9')
    || c == '-' || c == '.' || c == '_' || c == '~'
  }

  /** A byte that is the ASCII code of an unreserved character. */
  predicate IsUnreserved(b: byte)
  {
    b < 0x80 && IsUnreservedChar(b as int as char)
  }

  /** The upper-case hexadecimal digit of `d`. */
  function HexDigit(d: int): (c: char)
    requires 0 <= d < 16
    ensures IsUnreservedChar(c)
  {
    if d < 10 then ('0' as int + d) as char else ('A' as int + d - 10) as char
  }

  /** The value of an upper-case hexadecimal digit. */
  function HexValue(c: char): (r: Option<int>)
    ensures r.Some? ==> 0 <= r.value < 16 && HexDigit(r.value) == c
    ensures forall d :: 0 <= d < 16 && HexDigit(d) == c ==> r == Some(d)
  {
    if '0' <= c <= '9' then Some(c as int - '0' as int)
    else if 'A' <= c <= 'F' then Some(c as int - 'A' as int + 10)
    else None
  }

  /** One byte as the encoder writes it: itself when unreserved, otherwise `%` and two hex digits. */
  function EncodeByte(b: byte): (s: string)
    ensures IsUnreserved(b) ==> s == [b as int as char]
    ensures !IsUnreserved(b) ==>
      (|s| == 3 && s[0] == '%' && HexValue(s[1]) == Some(b as int / 16) && HexValue(s[2]) == Some(b as int % 16))
  {
    if IsUnreserved(b) then [b as int as char]
    else ['%', HexDigit(b as int / 16), HexDigit(b as int % 16)]
  }

  /** Every character of an encoded byte string is `%` or unreserved. */
  predicate IsEncoded(s: string)
  {
    forall i :: 0 <= i < |s| ==> s[i] == '%' || IsUnreservedChar(s[i])
  }

  /** The percent-encoding of a byte string. */
  function PercentEncode(bs: seq<byte>): (s: string)
    ensures IsEncoded(s)
  {
    if |bs| == 0 then [] else EncodeByte(bs[0]) + PercentEncode(bs[1..])
  }

  /**
    The strict decoder: it accepts exactly what the encoder writes, that is,
    unreserved characters and `%XX` (upper-case hex) for reserved bytes.
   */
  function PercentDecode(s: string): Option<seq<byte>>
    decreases |s|
  {
    if |s| == 0 then Some([])
    else if s[0] == '%' then
      if |s| < 3 then None
      else
        match (HexValue(s[1]), HexValue(s[2]))
        case (Some(hi), Some(lo)) =>
          var b := (hi * 16 + lo) as byte;
          if IsUnreserved(b) then None
          else
            (match PercentDecode(s[3..]) case None => None case Some(rest) => Some([b] + rest))
        case _ => None
    else if IsUnreservedChar(s[0]) then
      (match PercentDecode(s[1..]) case None => None case Some(rest) => Some([s[0] as int as byte] + rest))
    else None
  }

  /** Decoding the encoding of one byte followed by more text reads back that byte first. */
  lemma PercentDecodeByte(b: byte, rest: string)
    ensures PercentDecode(EncodeByte(b) + rest) ==
      (match PercentDecode(rest) case None => None case Some(bs) => Some([b] + bs))
  {
    var s := EncodeByte(b) + rest;
    if IsUnreserved(b) {
      assert s[1..] == rest;
    } else {
      assert s[3..] == rest;
      assert (b as int / 16) * 16 + b as int % 16 == b as int;
    }
  }

  /** Percent-decoding an encoding gives the bytes back. */
  lemma {:induction false} PercentDecodeEncode(bs: seq<byte>)
    ensures PercentDecode(PercentEncode(bs)) == Some(bs)
  {
    if |bs| > 0 {
      PercentDecodeByte(bs[0], PercentEncode(bs[1..]));
      PercentDecodeEncode(bs[1..]);
      assert [bs[0]] + bs[1..] == bs;
    }
  }

  /** Whatever the decoder accepts is the encoding of what it returns: the two are inverse. */
  lemma {:induction false} PercentEncodeDecode(s: string)
    requires PercentDecode(s).Some?
    ensures PercentEncode(PercentDecode(s).value) == s
    decreases |s|
  {
    if |s| > 0 {
      var bs := PercentDecode(s).value;
      if s[0] == '%' {
        PercentDecodeEscape(s);
        PercentEncodeDecode(s[3..]);
        assert s[..3] + s[3..] == s;
      } else {
        PercentEncodeDecode(s[1..]);
        assert bs[1..] == PercentDecode(s[1..]).value;
        assert [s[0]] + s[1..] == s;
      }
    }
  }

  /** A leading `%XX` that the decoder accepts is the encoding of the first byte it returns. */
  lemma PercentDecodeEscape(s: string)
    requires |s| > 0 && s[0] == '%' && PercentDecode(s).Some?
    ensures |s| >= 3 && PercentDecode(s[3..]).Some?
    ensures var bs := PercentDecode(s).value;
      |bs| > 0 && EncodeByte(bs[0]) == s[..3] && bs[1..] == PercentDecode(s[3..]).value
  {
    var hi, lo := HexValue(s[1]).value, HexValue(s[2]).value;
    var b := (hi * 16 + lo) as byte;
    assert b as int / 16 == hi && b as int % 16 == lo;
    assert !IsUnreserved(b);
    assert EncodeByte(b) == ['%', s[1], s[2]];
  }

  /** The encoder keeps every unreserved byte as its own character, so an unreserved string is unchanged. */
  lemma {:induction false} PercentEncodeUnreserved(bs: seq<byte>)
    requires forall i :: 0 <= i < |bs| ==> IsUnreserved(bs[i])
    ensures |PercentEncode(bs)| == |bs|
    ensures forall i :: 0 <= i < |bs| ==> PercentEncode(bs)[i] as int == bs[i] as int
  {
    if |bs| > 0 {
      PercentEncodeUnreserved(bs[1..]);
    }
  }

  /** An encoded string never contains the query delimiters `&`, `=` or `?`. */
  lemma EncodedHasNoDelimiters(s: string)
    requires IsEncoded(s)
    ensures '&' !in s && '=' !in s && '?' !in s
  {
    forall i | 0 <= i < |s| ensures s[i] != '&' && s[i] != '=' && s[i] != '?' {
    }
  }

  /** `stringByAddingPercentEncodingForURLQueryValue`: the percent-encoding of the UTF-8 of `s`. */
  function EncodeQueryValue(s: string): (r: string)
    ensures IsEncoded(r)
  {
    PercentEncode(Utf8.Encode(s))
  }

  /** Undoes `EncodeQueryValue`: percent-decode, then read the bytes as UTF-8. */
  function DecodeQueryValue(s: string): Option<string>
  {
    match PercentDecode(s)
    case None => None
    case Some(bs) => Utf8.Decode(bs)
  }

  /** The query-value encoder round-trips and its output is free of `&`, `=` and `?`. */
  lemma QueryValueRoundTrip(s: string)
    ensures DecodeQueryValue(EncodeQueryValue(s)) == Some(s)
    ensures '&' !in EncodeQueryValue(s) && '=' !in EncodeQueryValue(s) && '?' !in EncodeQueryValue(s)
  {
    PercentDecodeEncode(Utf8.Encode(s));
    Utf8.DecodeEncode(s);
    EncodedHasNoDelimiters(EncodeQueryValue(s));
  }

  /** A string of unreserved characters is its own query encoding. */
  lemma QueryValueUnreservedUnchanged(s: string)
    requires forall i :: 0 <= i < |s| ==> IsUnreservedChar(s[i])
    ensures EncodeQueryValue(s) == s
  {
    var bs := Utf8.Encode(s);
    Utf8.EncodeAscii(s);
    assert forall i :: 0 <= i < |bs| ==> IsUnreserved(bs[i]) by {
      forall i | 0 <= i < |bs| ensures IsUnreserved(bs[i]) {
        assert bs[i] as int == s[i] as int;
        assert bs[i] as int as char == s[i];
      }
    }
    PercentEncodeUnreserved(bs);
    var e := EncodeQueryValue(s);
    assert forall i :: 0 <= i < |s| ==> e[i] == s[i] by {
      forall i | 0 <= i < |s| ensures e[i] == s[i] {
        assert e[i] as int == s[i] as int;
      }
    }
  }

  /** `joined(separator:)` with a one-character separator. */
  function Join(parts: seq<string>, sep: char): string
  {
    if |parts| == 0 then []
    else if |parts| == 1 then parts[0]
    else parts[0] + [sep] + Join(parts[1..], sep)
  }

  /** Cuts `s` at every `sep`; there is always at least one piece. */
  function Split(s: string, sep: char): (parts: seq<string>)
    ensures |parts| > 0
    decreases |s|
  {
    if |s| == 0 then [[]]
    else
      var rest := Split(s[1..], sep);
      if s[0] == sep then [[]] + rest else [[s[0]] + rest[0]] + rest[1..]
  }

  /** A prefix without the separator extends the first piece. */
  lemma {:induction false} SplitPrefix(a: string, t: string, sep: char)
    requires sep !in a
    ensures Split(a + t, sep) == [a + Split(t, sep)[0]] + Split(t, sep)[1..]
    decreases |a|
  {
    if |a| == 0 {
      var st := Split(t, sep);
      assert a + t == t;
      assert a + st[0] == st[0];
      assert [st[0]] + st[1..] == st;
    } else {
      assert a[0] in a;
      assert (a + t)[0] == a[0] != sep;
      assert (a + t)[1..] == a[1..] + t;
      SplitPrefix(a[1..], t, sep);
      var rest := Split(a[1..] + t, sep);
      assert Split(a + t, sep) == [[a[0]] + rest[0]] + rest[1..];
      assert [a[0]] + (a[1..] + Split(t, sep)[0]) == a + Split(t, sep)[0];
    }
  }

  /** Splitting a join gives the pieces back, provided no piece contains the separator. */
  lemma {:induction false} SplitJoin(parts: seq<string>, sep: char)
    requires |parts| > 0
    requires forall i :: 0 <= i < |parts| ==> sep !in parts[i]
    ensures Split(Join(parts, sep), sep) == parts
  {
    if |parts| == 1 {
      SplitPrefix(parts[0], [], sep);
      assert parts[0] + [] == parts[0];
    } else {
      var tail := Join(parts[1..], sep);
      SplitJoin(parts[1..], sep);
      assert parts[0] + [sep] + tail == parts[0] + ([sep] + tail);
      SplitPrefix(parts[0], [sep] + tail, sep);
      assert ([sep] + tail)[1..] == tail;
      assert Split([sep] + tail, sep) == [[]] + Split(tail, sep);
      assert parts[0] + [] == parts[0];
      assert [parts[0]] + parts[1..] == parts;
    }
  }

  /** A parameter list in the order the dictionary happens to enumerate it. */
  type Params = seq<(string, string)>

  /** No key occurs twice, as in a dictionary. */
  predicate DistinctKeys(ps: Params)
  {
    forall i, j :: 0 <= i < j < |ps| ==> ps[i].0 != ps[j].0
  }

  /** The dictionary a parameter list enumerates. */
  function ToMap(ps: Params): map<string, string>
    requires DistinctKeys(ps)
  {
    map i | 0 <= i < |ps| :: ps[i].0 := ps[i].1
  }

  /** One entry as `stringFromHttpParameters` writes it: `encKey=encValue`. */
  function EncodePair(p: (string, string)): string
  {
    EncodeQueryValue(p.0) + "=" + EncodeQueryValue(p.1)
  }

  function EncodePairs(ps: Params): (r: seq<string>)
    ensures |r| == |ps| && forall i :: 0 <= i < |ps| ==> r[i] == EncodePair(ps[i])
  {
    if |ps| == 0 then [] else [EncodePair(ps[0])] + EncodePairs(ps[1..])
  }

  /** `stringFromHttpParameters`: the encoded entries joined by `&`, in enumeration order. */
  function StringFromHttpParameters(ps: Params): string
  {
    Join(EncodePairs(ps), '&')
  }

  /** Reads back one `key=value` piece. */
  function ParsePair(piece: string): Option<(string, string)>
  {
    var kv := Split(piece, '=');
    if |kv| != 2 then None
    else
      match (DecodeQueryValue(kv[0]), DecodeQueryValue(kv[1]))
      case (Some(k), Some(v)) => Some((k, v))
      case _ => None
  }

  function ParsePairs(pieces: seq<string>): (r: Option<Params>)
    ensures r.Some? ==> |r.value| == |pieces|
  {
    if |pieces| == 0 then Some([])
    else
      match (ParsePair(pieces[0]), ParsePairs(pieces[1..]))
      case (Some(p), Some(rest)) => Some([p] + rest)
      case _ => None
  }

  /** The parser for the parameter string: split on `&`, then on `=`, then decode. */
  function ParseHttpParameters(s: string): Option<Params>
  {
    if |s| == 0 then Some([]) else ParsePairs(Split(s, '&'))
  }

  lemma ParseEncodedPair(p: (string, string))
    ensures ParsePair(EncodePair(p)) == Some(p)
    ensures '&' !in EncodePair(p)
  {
    var k, v := EncodeQueryValue(p.0), EncodeQueryValue(p.1);
    QueryValueRoundTrip(p.0);
    QueryValueRoundTrip(p.1);
    SplitJoin([k, v], '=');
    assert Join([k, v], '=') == EncodePair(p) by {
      assert [k, v][1..] == [v];
    }
  }

  lemma {:induction false} ParseEncodedPairs(ps: Params)
    ensures ParsePairs(EncodePairs(ps)) == Some(ps)
  {
    if |ps| > 0 {
      ParseEncodedPair(ps[0]);
      ParseEncodedPairs(ps[1..]);
      assert EncodePairs(ps)[1..] == EncodePairs(ps[1..]);
      assert [ps[0]] + ps[1..] == ps;
    }
  }

  /** Parsing the parameter string gives back the entries, in the order they were written. */
  lemma ParseStringFromHttpParameters(ps: Params)
    ensures ParseHttpParameters(StringFromHttpParameters(ps)) == Some(ps)
  {
    var pieces := EncodePairs(ps);
    if |ps| > 0 {
      forall i | 0 <= i < |pieces| ensures '&' !in pieces[i] {
        ParseEncodedPair(ps[i]);
      }
      SplitJoin(pieces, '&');
      assert |StringFromHttpParameters(ps)| > 0 by {
        assert '=' in EncodePair(ps[0]);
        if |ps| == 1 {
        } else {
          assert |Join(pieces, '&')| >= |pieces[0]|;
        }
      }
      ParseEncodedPairs(ps);
    }
  }

  /**
    Whatever order the dictionary enumerates its entries in, parsing the
    parameter string recovers the dictionary.
   */
  lemma ParametersRecoverDictionary(ps: Params, d: map<string, string>)
    requires DistinctKeys(ps) && ToMap(ps) == d
    ensures ParseHttpParameters(StringFromHttpParameters(ps)).Some?
    ensures DistinctKeys(ParseHttpParameters(StringFromHttpParameters(ps)).value)
    ensures ToMap(ParseHttpParameters(StringFromHttpParameters(ps)).value) == d
  {
    ParseStringFromHttpParameters(ps);
  }
}
