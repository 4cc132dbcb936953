/** The emulator client: ROM check and the gold-at-hand change detector.
    A read request is given as its result: `None` when the emulator
    connection failed (Python's RequestFailedError), else the bytes read. */
module Client {
  import opened Wrappers
  import opened ByteCodec
  import Constants

  /** The name the ROM must carry in its first 12 bytes. */
  const ROM_NAME := "DRAGONQUEST9"
  /** The ASCII bytes of that name. */
  const ROM_NAME_BYTES: seq<Byte> := [68, 82, 65, 71, 79, 78, 81, 85, 69, 83, 84, 57]
  const GAME := "Dragon Quest IX"

  /** Where `location_check` reads the gold at hand, and how many bytes. */
  const MONEY_ADDRESS := 0x0F6D48
  const MONEY_SIZE := 4

  /** The gold watched by the client is the gold the inventory helper
      writes. */
  lemma MoneyIsGoldAtHand()
    ensures MONEY_ADDRESS == Constants.GOLD_AT_HAND.address
    ensures MONEY_SIZE == Constants.GOLD_AT_HAND.byteSize
  {
  }

  /** `bytes.decode("ascii")`: `None` stands for the UnicodeDecodeError of a
      byte above 127. */
  function DecodeAscii(bs: seq<Byte>): (r: Option<string>)
    ensures r.Some? <==> forall i :: 0 <= i < |bs| ==> bs[i] < 128
    ensures r.Some? ==> |r.value| == |bs| && forall i :: 0 <= i < |bs| ==> r.value[i] as int == bs[i]
  {
    if bs == [] then Some([])
    else if bs[0] >= 128 then None
    else
      match DecodeAscii(bs[1..])
      case None => None
      case Some(rest) => Some([bs[0] as char] + rest)
  }

  /** Two byte strings that decode to the same text are equal. */
  lemma DecodeAsciiInjective(a: seq<Byte>, b: seq<Byte>)
    requires DecodeAscii(a).Some? && DecodeAscii(a) == DecodeAscii(b)
    ensures a == b
  {
    var r := DecodeAscii(a).value;
    assert forall i :: 0 <= i < |a| ==> a[i] == r[i] as int == b[i];
  }

  /** The ROM passes exactly when its 12 bytes are the ASCII bytes of the
      name. */
  lemma RomNameMatch(bs: seq<Byte>)
    ensures DecodeAscii(bs) == Some(ROM_NAME) <==> bs == ROM_NAME_BYTES
  {
    assert forall i :: 0 <= i < |ROM_NAME_BYTES| ==> ROM_NAME_BYTES[i] < 128;
    var name := DecodeAscii(ROM_NAME_BYTES).value;
    assert |name| == |ROM_NAME|;
    assert forall i :: 0 <= i < |ROM_NAME| ==> ROM_NAME[i] as int == ROM_NAME_BYTES[i];
    assert forall i :: 0 <= i < |ROM_NAME| ==> name[i] == ROM_NAME[i];
    assert name == ROM_NAME;
    if DecodeAscii(bs) == Some(ROM_NAME) {
      DecodeAsciiInjective(bs, ROM_NAME_BYTES);
    }
  }

  /** The parts of the client context the client touches. */
  class ClientContext {
    var serverConnected: bool
    var game: string
    var wantSlotData: bool

    constructor (serverConnected: bool, game: string, wantSlotData: bool)
      ensures this.serverConnected == serverConnected && this.game == game && this.wantSlotData == wantSlotData
    {
      this.serverConnected := serverConnected;
      this.game := game;
      this.wantSlotData := wantSlotData;
    }
  }

  /** What `validate_rom` does: accept, refuse, or fail on a name that is
      not ASCII (that error is not caught). */
  datatype RomCheck = Accepted | Refused | NotAscii

  /** One polling pass of the gold-at-hand watcher. */
  datatype Watch = Skipped | ReadFailed | NoChange | MoneyChanged(money: nat)

  /** The change detector as a step: the new remembered value and whether
      a change is reported. */
  function ObserveMoney(current: Option<nat>, money: nat): (r: (Option<nat>, bool))
    ensures r.0 == Some(money)
    ensures r.1 <==> current != Some(money)
  {
    if current != Some(money) then (Some(money), true) else (current, false)
  }

  /** The first observation is always reported; a second observation of the
      same value is not, and leaves the remembered value as it was. */
  lemma RepeatedObservationReportsOnce(money: nat)
    ensures ObserveMoney(None, money).1
    ensures var s := ObserveMoney(None, money).0;
      !ObserveMoney(s, money).1 && ObserveMoney(s, money).0 == s
  {
  }

  class DQIXClient {
    /** The gold at hand last seen; absent until the first read. */
    var currentMoney: Option<nat>

    constructor ()
      ensures currentMoney == None
    {
      currentMoney := None;
    }

    /** `validate_rom`: only an exact name match marks the context as this
        game and asks for slot data. */
    method ValidateRom(ctx: ClientContext, romRead: Option<seq<Byte>>) returns (r: RomCheck)
      modifies ctx
      ensures r == Accepted <==> romRead == Some(ROM_NAME_BYTES)
      ensures r == NotAscii <==> romRead.Some? && DecodeAscii(romRead.value).None?
      ensures r == Accepted ==>
        ctx.game == GAME && ctx.wantSlotData && ctx.serverConnected == old(ctx.serverConnected)
      ensures r != Accepted ==> unchanged(ctx)
    {
      if romRead.None? {
        return Refused;
      }
      var romName := DecodeAscii(romRead.value);
      RomNameMatch(romRead.value);
      if romName.None? {
        return NotAscii;
      }
      if romName.value != ROM_NAME {
        return Refused;
      }
      ctx.game := GAME;
      ctx.wantSlotData := true;
      r := Accepted;
    }

    /** `location_check`: decode the 4 bytes read and remember them,
        reporting a change when they differ from what was remembered. */
    method LocationCheck(moneyBytes: seq<Byte>) returns (w: Watch)
      modifies this
      ensures currentMoney == Some(FromLittle(moneyBytes))
      ensures |moneyBytes| == MONEY_SIZE ==> currentMoney.value < 0x1_0000_0000
      ensures (currentMoney, w.MoneyChanged?) == ObserveMoney(old(currentMoney), FromLittle(moneyBytes))
      ensures w.MoneyChanged? ==> w.money == FromLittle(moneyBytes)
      ensures !w.MoneyChanged? ==> w == NoChange
    {
      var moneyValue := FromLittle(moneyBytes);
      if Some(moneyValue) != currentMoney {
        currentMoney := Some(moneyValue);
        w := MoneyChanged(moneyValue);
      } else {
        w := NoChange;
      }
    }

    /** `game_watcher`: nothing without a server; a failed read leaves the
        remembered value as it was. */
    method GameWatcher(ctx: ClientContext, moneyRead: Option<seq<Byte>>) returns (w: Watch)
      modifies this
      ensures !ctx.serverConnected ==> w == Skipped && currentMoney == old(currentMoney)
      ensures ctx.serverConnected && moneyRead.None? ==> w == ReadFailed && currentMoney == old(currentMoney)
      ensures ctx.serverConnected && moneyRead.Some? ==>
        (currentMoney, w.MoneyChanged?) == ObserveMoney(old(currentMoney), FromLittle(moneyRead.value)) &&
        (w.MoneyChanged? || w == NoChange)
    {
      if !ctx.serverConnected {
        return Skipped;
      }
      if moneyRead.None? {
        return ReadFailed;
      }
      w := LocationCheck(moneyRead.value);
    }
  }
}
