/** Constants of the indexer SDK: the CreditChain coin's Move type string, the raw
    32-byte address of the LBT fungible-asset metadata object, and that address's
    `0x`-prefixed lowercase hex form. */
module IndexerConstants {
  import opened Common

  /** `CREDITCHAIN_COIN_TYPE_STR`: the coin's fully qualified Move struct type. */
  const CREDITCHAIN_COIN_TYPE_STR: string := "0x1::creditchain_coin::CreditChainCoin"

  /** Splits on every `"::"`, left to right, as `str::split("::")` does. */
  function SplitPath(s: string): (parts: seq<string>)
    ensures |parts| >= 1
    decreases |s|
  {
    if |s| < 2 then [s]
    else if s[0] == ':' && s[1] == ':' then [""] + SplitPath(s[2..])
    else
      var rest := SplitPath(s[1..]);
      [[s[0]] + rest[0]] + rest[1..]
  }

  /** Joins with `"::"` between parts: the inverse of `SplitPath`. */
  function JoinPath(parts: seq<string>): string
    requires |parts| >= 1
  {
    if |parts| == 1 then parts[0] else parts[0] + "::" + JoinPath(parts[1..])
  }

  /** `s` contains no `"::"`. */
  predicate SeparatorFree(s: string)
  {
    forall i :: 0 <= i < |s| - 1 ==> !(s[i] == ':' && s[i + 1] == ':')
  }

  /** Joining the parts back with `"::"` gives the string: `SplitPath` drops no text.
      That it cuts at every `"::"` is what `SplitWithoutSeparator` and `SplitAfterHead`
      state; this lemma alone would hold of a split that never cuts. */
  lemma {:induction false} JoinSplit(s: string)
    ensures JoinPath(SplitPath(s)) == s
    decreases |s|
  {
    if |s| < 2 {
    } else if s[0] == ':' && s[1] == ':' {
      JoinSplit(s[2..]);
      var rest := SplitPath(s[2..]);
      assert SplitPath(s) == [""] + rest;
      assert ([""] + rest)[1..] == rest;
      assert s == "::" + s[2..];
    } else {
      JoinSplit(s[1..]);
      var rest := SplitPath(s[1..]);
      var parts := [[s[0]] + rest[0]] + rest[1..];
      assert SplitPath(s) == parts;
      if |rest| == 1 {
        assert s == [s[0]] + s[1..];
      } else {
        assert parts[1..] == rest[1..];
        assert JoinPath(rest) == rest[0] + "::" + JoinPath(rest[1..]);
        assert s == [s[0]] + s[1..];
      }
    }
  }

  /** A string without `"::"` in it is a single part. */
  lemma {:induction false} SplitWithoutSeparator(s: string)
    requires SeparatorFree(s)
    ensures SplitPath(s) == [s]
    decreases |s|
  {
    if |s| >= 2 {
      assert SeparatorFree(s[1..]) by {
        forall i | 0 <= i < |s[1..]| - 1 ensures !(s[1..][i] == ':' && s[1..][i + 1] == ':') {
          assert s[1..][i] == s[i + 1] && s[1..][i + 1] == s[i + 2];
        }
      }
      SplitWithoutSeparator(s[1..]);
      assert [s[0]] + s[1..] == s;
    }
  }

  /** Splitting `head + "::" + tail`, where `head` holds no colon, peels off `head`. */
  lemma {:induction false} SplitAfterHead(head: string, tail: string)
    requires forall i :: 0 <= i < |head| ==> head[i] != ':'
    ensures SplitPath(head + "::" + tail) == [head] + SplitPath(tail)
    decreases |head|
  {
    var s := head + "::" + tail;
    if head == [] {
      assert s == "::" + tail;
      assert s[2..] == tail;
    } else {
      assert s[1..] == head[1..] + "::" + tail;
      SplitAfterHead(head[1..], tail);
      assert [head[0]] + head[1..] == head;
    }
  }

  predicate ColonFree(s: string)
  {
    forall i :: 0 <= i < |s| ==> s[i] != ':'
  }

  /** A three-part path whose first two parts hold no colon and whose last holds no `"::"`. */
  lemma SplitThreeParts(a: string, b: string, c: string)
    requires ColonFree(a) && ColonFree(b) && SeparatorFree(c)
    ensures SplitPath(a + ("::" + (b + ("::" + c)))) == [a, b, c]
  {
    assert a + ("::" + (b + ("::" + c))) == a + "::" + (b + "::" + c);
    SplitWithoutSeparator(c);
    SplitAfterHead(b, c);
    SplitAfterHead(a, b + "::" + c);
  }

  lemma CoinTypeLayout()
    ensures CREDITCHAIN_COIN_TYPE_STR == "0x1" + ("::" + ("creditchain_coin" + ("::" + "CreditChainCoin")))
  {
  }

  /** The coin type string names address `0x1`, module `creditchain_coin`, struct `CreditChainCoin`. */
  lemma CoinTypeParts()
    ensures SplitPath(CREDITCHAIN_COIN_TYPE_STR) == ["0x1", "creditchain_coin", "CreditChainCoin"]
  {
    CoinTypeLayout();
    SplitThreeParts("0x1", "creditchain_coin", "CreditChainCoin");
  }

  /** `LBT_METADATA_ADDRESS_RAW`: a zeroed 32-byte array whose last byte is then set to 10. */
  method LbtMetadataAddressRaw() returns (raw: seq<u8>)
    ensures |raw| == 32
    ensures forall i :: 0 <= i < 31 ==> raw[i] == 0
    ensures raw[31] == 10
  {
    var addr := new u8[32](_ => 0);
    addr[31] := 10;
    raw := addr[..];
  }

  function LowerHexDigit(d: u8): (c: char)
    requires d < 16
  {
    "0123456789abcdef"[d]
  }

  /** `hex::encode`: two lowercase digits per byte, high nibble first. */
  function HexEncode(bytes: seq<u8>): (s: string)
    ensures |s| == 2 * |bytes|
    ensures forall i :: 0 <= i < |bytes| ==>
      s[2 * i] == LowerHexDigit(bytes[i] / 16) && s[2 * i + 1] == LowerHexDigit(bytes[i] % 16)
  {
    if bytes == [] then ""
    else [LowerHexDigit(bytes[0] / 16), LowerHexDigit(bytes[0] % 16)] + HexEncode(bytes[1..])
  }

  /** `LBT_METADATA_ADDRESS_HEX`: `"0x"`, sixty-two zeros, then `"0a"`. */
  method LbtMetadataAddressHex() returns (hex: string)
    ensures |hex| == 66
    ensures hex == "0x" + seq(62, _ => '0') + "0a"
  {
    var raw := LbtMetadataAddressRaw();
    var enc := HexEncode(raw);
    hex := "0x" + enc;
    var zeros: string := seq(62, _ => '0');
    forall i | 0 <= i < 66 ensures hex[i] == ("0x" + zeros + "0a")[i] {
      if 2 <= i {
        var k := (i - 2) / 2;
        assert hex[i] == enc[i - 2];
        if (i - 2) % 2 == 0 {
          assert enc[2 * k] == LowerHexDigit(raw[k] / 16);
        } else {
          assert enc[2 * k + 1] == LowerHexDigit(raw[k] % 16);
        }
      }
    }
  }
}
