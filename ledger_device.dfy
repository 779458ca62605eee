/** What the send flow knows of the Ledger device: the key path it asks for, status words, app handles. */
module LedgerDevice {
  import opened Text

  type Bytes = seq<bv8>

  /** One level of a hierarchical-deterministic key path; hardened levels print with a trailing quote. */
  datatype PathLevel = PathLevel(index: nat, hardened: bool)

  /** The BIP-44 path m / 44' / coin' / account' / change / addressIndex. */
  function Bip44Path(coinType: nat, account: nat, change: nat, addressIndex: nat): seq<PathLevel> {
    [PathLevel(44, true), PathLevel(coinType, true), PathLevel(account, true),
     PathLevel(change, false), PathLevel(addressIndex, false)]
  }

  function RenderLevel(level: PathLevel): string {
    "/" + NatToString(level.index) + (if level.hardened then "'" else "")
  }

  function RenderLevels(levels: seq<PathLevel>): string {
    if levels == [] then "" else RenderLevel(levels[0]) + RenderLevels(levels[1..])
  }

  function RenderPath(levels: seq<PathLevel>): string {
    "m" + RenderLevels(levels)
  }

  /** The registered BIP-44 coin type of STX. */
  const StxCoinType: nat := 5757

  /** The one key path the wallet asks the device for, both to show the address and to sign. */
  const StxDerivationPath: string := "m/44'/5757'/0'/0/0"

  lemma Numeral44()
    ensures NatToString(44) == "44"
  {
    assert NatToString(4) == [DigitChar(4)] && DigitChar(4) == '4';
  }

  lemma Numeral5757()
    ensures NatToString(5757) == "5757"
  {
    assert NatToString(5) == [DigitChar(5)] && DigitChar(5) == '5';
    assert DigitChar(7) == '7';
    assert NatToString(57) == NatToString(5) + [DigitChar(7)];
    assert NatToString(575) == NatToString(57) + [DigitChar(5)];
    assert NatToString(5757) == NatToString(575) + [DigitChar(7)];
  }

  /** The fixed path is account 0, external chain, first address of the STX coin type. */
  lemma StxDerivationPathIsBip44()
    ensures StxDerivationPath == RenderPath(Bip44Path(StxCoinType, 0, 0, 0))
  {
    var p := Bip44Path(StxCoinType, 0, 0, 0);
    Numeral44();
    Numeral5757();
    assert NatToString(0) == "0";
    assert RenderLevel(p[0]) == "/44'" && RenderLevel(p[1]) == "/5757'" && RenderLevel(p[2]) == "/0'";
    assert RenderLevel(p[3]) == "/0" && RenderLevel(p[4]) == "/0";
    assert RenderLevels(p[4..]) == "/0" by {
      assert p[4..][1..] == [];
    }
    assert RenderLevels(p[3..]) == "/0/0" by {
      assert p[3..][1..] == p[4..];
    }
    assert RenderLevels(p[2..]) == "/0'/0/0" by {
      assert p[2..][1..] == p[3..];
    }
    assert RenderLevels(p[1..]) == "/5757'/0'/0/0" by {
      assert p[1..][1..] == p[2..];
    }
  }

  /** The device's status word for success (the app library's `ERROR_CODE.NoError`). */
  const NoError: int := 0x9000
  /** The status word a version query gets while the STX app is not open on the device. */
  const AppClosedCode: int := 0x6e00
  /** The status word a version query gets from the open STX app. */
  const AppOpenCode: int := 0x9000

  /** A client of the device's STX app, bound to one open transport. */
  datatype DeviceApp = DeviceApp(transport: nat)
}
