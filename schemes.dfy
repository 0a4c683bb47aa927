/**
 * The address schemes find_address supports: for each (blockchain,
 * address_type) the fixed prefix of every address of that scheme and the
 * first two levels (purpose and coin type) of its derivation path.
 */
module Schemes {
  import opened Common
  import opened DerivationPath
  import AddressMatch

  datatype Coin = Bitcoin | Ethereum

  /** The coin type registered for the coin in SLIP-0044. */
  function CoinType(c: Coin): nat {
    match c
    case Bitcoin => 0
    case Ethereum => 60
  }

  /**
   * A selected scheme: the BIP purpose, the coin, the prefix every address
   * begins with (start_with) and the path text "purpose'/coin_type'/"
   * (derivation_prefix).
   */
  datatype Scheme = Scheme(purpose: nat, coin: Coin, startWith: string, derivationPrefix: string)

  datatype SchemeError =
      /** Bitcoin with an address type other than bip44, bip49 and bip84: the ValueError. */
    | UnsupportedAddressType(addressType: string)
      /** A blockchain other than bitcoin and ethereum: no scheme is bound, so its first use fails. */
    | UnknownBlockchain(blockchain: string)

  /** The path text of a scheme is its purpose and its coin type, both hardened. */
  predicate PrefixAgrees(s: Scheme) {
    s.derivationPrefix == Decimal(s.purpose) + "'/" + Decimal(CoinType(s.coin)) + "'/"
  }

  /** The scheme selection at the top of each round of find_address. */
  function SelectScheme(blockchain: string, addressType: string): (r: Result<Scheme, SchemeError>)
    ensures r.Ok? <==> blockchain == "ethereum" || (blockchain == "bitcoin" && addressType in {"bip44", "bip49", "bip84"})
    ensures r.Err? ==> r.error == if blockchain == "bitcoin" then UnsupportedAddressType(addressType) else UnknownBlockchain(blockchain)
    ensures r.Ok? ==> r.value.coin == if blockchain == "bitcoin" then Bitcoin else Ethereum
    ensures r.Ok? && blockchain == "bitcoin" ==> addressType == "bip" + Decimal(r.value.purpose)
  {
    if blockchain == "bitcoin" then
      if addressType == "bip44" then Ok(Scheme(44, Bitcoin, "1", "44'/0'/"))
      else if addressType == "bip49" then Ok(Scheme(49, Bitcoin, "3", "49'/0'/"))
      else if addressType == "bip84" then Ok(Scheme(84, Bitcoin, "bc1q", "84'/0'/"))
      else Err(UnsupportedAddressType(addressType))
    else if blockchain == "ethereum" then
      Ok(Scheme(44, Ethereum, "0x", "44'/60'/"))
    else
      Err(UnknownBlockchain(blockchain))
  }

  /**
   * Every selected scheme is well formed: its path text is its purpose and
   * coin type, and its address prefix has no upper-case letter, so lower-casing
   * an address keeps the prefix.
   */
  lemma SelectedSchemeWellFormed(blockchain: string, addressType: string)
    requires SelectScheme(blockchain, addressType).Ok?
    ensures PrefixAgrees(SelectScheme(blockchain, addressType).value)
    ensures AddressMatch.Lower(SelectScheme(blockchain, addressType).value.startWith)
         == SelectScheme(blockchain, addressType).value.startWith
  {
    var zero := Decimal(0);
    assert zero == "0";
    if blockchain == "ethereum" {
      assert "44'/60'/" == Decimal(44) + "'/" + Decimal(60) + "'/";
      assert AddressMatch.Lower("0x") == "0x";
    } else if addressType == "bip44" {
      assert "44'/0'/" == Decimal(44) + "'/" + zero + "'/";
      assert AddressMatch.Lower("1") == "1";
    } else if addressType == "bip49" {
      assert "49'/0'/" == Decimal(49) + "'/" + zero + "'/";
      assert AddressMatch.Lower("3") == "3";
    } else {
      assert "84'/0'/" == Decimal(84) + "'/" + zero + "'/";
      assert AddressMatch.Lower("bc1q") == "bc1q";
    }
  }

  /** The table itself: prefixes and path texts per supported combination. */
  lemma SchemeTable(addressType: string)
    ensures SelectScheme("bitcoin", "bip44") == Ok(Scheme(44, Bitcoin, "1", "44'/0'/"))
    ensures SelectScheme("bitcoin", "bip49") == Ok(Scheme(49, Bitcoin, "3", "49'/0'/"))
    ensures SelectScheme("bitcoin", "bip84") == Ok(Scheme(84, Bitcoin, "bc1q", "84'/0'/"))
    ensures SelectScheme("ethereum", addressType) == Ok(Scheme(44, Ethereum, "0x", "44'/60'/"))
  {
  }

  /**
   * The path text of line 59: "m/", the scheme's path text, then account',
   * change and index. For a well-formed scheme it is the BIP-0044 path of
   * the derived key.
   */
  function SourcePath(s: Scheme, account: nat, change: nat, index: nat): (r: string)
    ensures PrefixAgrees(s) ==> r == Format(Bip44Levels(s, account, change, index))
  {
    Bip44Text(s, account, change, index);
    "m/" + s.derivationPrefix + Decimal(account) + "'/" + Decimal(change) + "/" + Decimal(index)
  }

  /** The five BIP-0044 levels: purpose', coin_type', account', change, address_index. */
  function Bip44Levels(s: Scheme, account: nat, change: nat, index: nat): seq<Level> {
    [Level(s.purpose, true), Level(CoinType(s.coin), true), Level(account, true), Level(change, false), Level(index, false)]
  }

  /** The text of the five levels, written out piece by piece. */
  lemma Bip44Text(s: Scheme, account: nat, change: nat, index: nat)
    ensures Format(Bip44Levels(s, account, change, index))
         == "m/" + (Decimal(s.purpose) + "'/" + Decimal(CoinType(s.coin)) + "'/")
            + Decimal(account) + "'/" + Decimal(change) + "/" + Decimal(index)
  {
    var ls := Bip44Levels(s, account, change, index);
    var p, c, a := Decimal(s.purpose), Decimal(CoinType(s.coin)), Decimal(account);
    var h, i := Decimal(change), Decimal(index);
    var f4 := "/" + i;
    var f3 := "/" + h + f4;
    var f2 := "/" + a + "'" + f3;
    var f1 := "/" + c + "'" + f2;
    var f0 := "/" + p + "'" + f1;
    assert FormatLevels(ls[4..]) == f4 by {
      assert ls[4..][1..] == [];
    }
    assert FormatLevels(ls[3..]) == f3 by {
      assert ls[3..][1..] == ls[4..];
    }
    assert FormatLevels(ls[2..]) == f2 by {
      assert ls[2..][1..] == ls[3..];
    }
    assert FormatLevels(ls[1..]) == f1 by {
      assert ls[1..][1..] == ls[2..];
    }
    assert FormatLevels(ls) == f0;
    PathPieces(p, c, a, h, i);
  }

  /** The f-string of the path and the level-by-level text are the same pieces, grouped differently. */
  lemma PathPieces(p: string, c: string, a: string, h: string, i: string)
    ensures "m/" + (p + "'/" + c + "'/") + a + "'/" + h + "/" + i
         == "m" + ("/" + p + "'" + ("/" + c + "'" + ("/" + a + "'" + ("/" + h + ("/" + i)))))
  {
  }

  /** The reported path text reads back as exactly the five levels of the derived key. */
  lemma SourcePathReadsBack(s: Scheme, account: nat, change: nat, index: nat)
    requires PrefixAgrees(s)
    ensures Parse(SourcePath(s, account, change, index)) == Some(Bip44Levels(s, account, change, index))
  {
    ParseFormat(Bip44Levels(s, account, change, index));
  }

  /** Distinct grid cells are reported under distinct path texts. */
  lemma SourcePathsDistinct(s: Scheme, a1: nat, c1: nat, i1: nat, a2: nat, c2: nat, i2: nat)
    requires PrefixAgrees(s)
    requires (a1, c1, i1) != (a2, c2, i2)
    ensures SourcePath(s, a1, c1, i1) != SourcePath(s, a2, c2, i2)
  {
    SourcePathReadsBack(s, a1, c1, i1);
    SourcePathReadsBack(s, a2, c2, i2);
    assert Bip44Levels(s, a1, c1, i1)[2..] != Bip44Levels(s, a2, c2, i2)[2..];
  }
}
