/**
 Fixed-size USB packets: a type byte, a big-endian 16-bit data size, the data,
 and padding (src/connection/usb/protocol.rs and both accessory.rs files).
 What each bulk transfer does is an answer of the environment.
 */
module UsbProtocol {
  import opened Sequences
  import opened Bytes

  const USB_HEADER_SIZE: nat := 3
  const USB_OUT_PACKET_SIZE: nat := 512
  const USB_IN_PACKET_SIZE: nat := 64
  const USB_PACKET_MAX_DATA_SIZE: nat := 509
  const USB_IN_PACKET_MAX_DATA_SIZE: nat := 61
  const USB_EMPTY_PACKET: Byte := 1

  datatype OutType = OutEmpty | OutJsonStream | OutAudioData | OutNextIsWrite {
    function Code(): Byte {
      match this
      case OutEmpty => USB_EMPTY_PACKET
      case OutJsonStream => 2
      case OutAudioData => 3
      case OutNextIsWrite => 4
    }
  }

  datatype InType = InEmpty | InJsonStream {
    function Code(): Byte {
      match this
      case InEmpty => USB_EMPTY_PACKET
      case InJsonStream => 2
    }
  }

  /**
   `Overrun` is a size field that reaches past the packet: slicing the data panics.
   `UnexpectedSize` and `ReadFailed` are errors of the transfer itself.
   */
  datatype Decoded<+T> =
    | Received(packetType: T, data: seq<Byte>)
    | UnknownType(code: Byte)
    | Overrun
    | UnexpectedSize(size: nat)
    | ReadFailed

  /** The raw transfer of `length` bytes; data that does not fit is cut off, but its size is not. */
  function Encode(code: Byte, data: seq<Byte>, length: nat): (raw: seq<Byte>)
    requires |data| < 0x1_0000 && USB_HEADER_SIZE <= length
    ensures |raw| == length
  {
    var kept := if |data| < length - USB_HEADER_SIZE then data else data[..length - USB_HEADER_SIZE];
    [code] + U16ToBe(|data|) + kept + Repeat(0, length - USB_HEADER_SIZE - |kept|)
  }

  function DataSize(raw: seq<Byte>): U16
    requires USB_HEADER_SIZE <= |raw|
  {
    U16FromBe(raw[1..3])
  }

  function DecodeData<T>(packetType: T, raw: seq<Byte>): Decoded<T>
    requires USB_HEADER_SIZE <= |raw|
  {
    var size := DataSize(raw);
    if USB_HEADER_SIZE + size > |raw| then Overrun
    else Received(packetType, raw[USB_HEADER_SIZE..USB_HEADER_SIZE + size])
  }

  function DecodeOut(raw: seq<Byte>): Decoded<OutType>
    requires USB_HEADER_SIZE <= |raw|
  {
    var code := raw[0];
    if code == OutEmpty.Code() then DecodeData(OutEmpty, raw)
    else if code == OutJsonStream.Code() then DecodeData(OutJsonStream, raw)
    else if code == OutAudioData.Code() then DecodeData(OutAudioData, raw)
    else if code == OutNextIsWrite.Code() then DecodeData(OutNextIsWrite, raw)
    else UnknownType(code)
  }

  /** What the Android end makes of one read of at most a packet. */
  function DecodeRead(read: seq<Byte>): Decoded<OutType>
  {
    if |read| == USB_OUT_PACKET_SIZE then DecodeOut(read) else UnexpectedSize(|read|)
  }

  function DecodeIn(raw: seq<Byte>): Decoded<InType>
    requires USB_HEADER_SIZE <= |raw|
  {
    var code := raw[0];
    if code == 1 then DecodeData(InEmpty, raw)
    else if code == 2 then DecodeData(InJsonStream, raw)
    else UnknownType(code)
  }

  /**
   The bytes of a packet towards Android: its type is 1 (empty), 2 (JSON), 3 (audio) or
   4 (the next one is for writing), the size that follows is big-endian, and the data
   is what that size says; any other type, and a size past the end, are told apart.
   Towards Linux the same holds with the first two types.
   */
  lemma Layout(raw: seq<Byte>)
    requires |raw| >= 3
    ensures var size := raw[1] as int * 256 + raw[2] as int;
            && (DecodeOut(raw).UnknownType? <==> raw[0] < 1 || raw[0] > 4)
            && (DecodeOut(raw).Overrun? <==> 1 <= raw[0] <= 4 && 3 + size > |raw|)
            && (1 <= raw[0] <= 4 && 3 + size <= |raw| ==>
                  DecodeOut(raw) == Received([OutEmpty, OutJsonStream, OutAudioData, OutNextIsWrite][raw[0] - 1],
                                             raw[3..3 + size]))
            && (DecodeIn(raw).UnknownType? <==> raw[0] < 1 || raw[0] > 2)
            && (DecodeIn(raw).Overrun? <==> 1 <= raw[0] <= 2 && 3 + size > |raw|)
            && (1 <= raw[0] <= 2 && 3 + size <= |raw| ==>
                  DecodeIn(raw) == Received([InEmpty, InJsonStream][raw[0] - 1], raw[3..3 + size]))
    ensures forall data, length: nat {:trigger Encode(raw[0], data, length)} :: |data| < 0x1_0000 && length >= 3 ==>
              var sent := Encode(raw[0], data, length);
              && |sent| == length
              && sent[0] == raw[0] && sent[1] as int * 256 + sent[2] as int == |data|
              && forall i :: 3 <= i < length ==> sent[i] == if i - 3 < |data| then data[i - 3] else 0
  {
    assert raw[1..3] == [raw[1], raw[2]];
  }

  lemma EncodedData<T>(packetType: T, code: Byte, data: seq<Byte>, length: nat)
    requires |data| < 0x1_0000 && USB_HEADER_SIZE <= length
    ensures var decoded := DecodeData(packetType, Encode(code, data, length));
            decoded == if USB_HEADER_SIZE + |data| <= length then Received(packetType, data) else Overrun
  {
    var raw := Encode(code, data, length);
    assert raw[1..3] == U16ToBe(|data|);
    if USB_HEADER_SIZE + |data| <= length {
      assert raw[USB_HEADER_SIZE..USB_HEADER_SIZE + |data|] == data;
    }
  }

  /** Linux to Android: type and data survive exactly when the data fits the packet. */
  lemma OutRoundTrip(packetType: OutType, data: seq<Byte>)
    requires |data| < 0x1_0000
    ensures var decoded := DecodeOut(Encode(packetType.Code(), data, USB_OUT_PACKET_SIZE));
            && (|data| <= USB_PACKET_MAX_DATA_SIZE ==> decoded == Received(packetType, data))
            && (|data| > USB_PACKET_MAX_DATA_SIZE ==> decoded == Overrun)
  {
    EncodedData(packetType, packetType.Code(), data, USB_OUT_PACKET_SIZE);
  }

  /** Android to Linux: the same with packets of 64 bytes. */
  lemma InRoundTrip(packetType: InType, data: seq<Byte>)
    requires |data| < 0x1_0000
    ensures var decoded := DecodeIn(Encode(packetType.Code(), data, USB_IN_PACKET_SIZE));
            && (|data| <= USB_IN_PACKET_MAX_DATA_SIZE ==> decoded == Received(packetType, data))
            && (|data| > USB_IN_PACKET_MAX_DATA_SIZE ==> decoded == Overrun)
  {
    EncodedData(packetType, packetType.Code(), data, USB_IN_PACKET_SIZE);
  }

  /** An audio packet queued as an empty one and relabelled on the way out is read back as audio. */
  lemma AudioRoundTrip(packet: seq<Byte>)
    requires |packet| <= USB_PACKET_MAX_DATA_SIZE
    ensures var raw := Encode(USB_EMPTY_PACKET, packet, USB_OUT_PACKET_SIZE);
            && raw[0 := OutAudioData.Code()] == Encode(OutAudioData.Code(), packet, USB_OUT_PACKET_SIZE)
            && DecodeOut(raw[0 := OutAudioData.Code()]) == Received(OutAudioData, packet)
  {
    var raw := Encode(USB_EMPTY_PACKET, packet, USB_OUT_PACKET_SIZE);
    assert raw[0 := OutAudioData.Code()] == Encode(OutAudioData.Code(), packet, USB_OUT_PACKET_SIZE);
    OutRoundTrip(OutAudioData, packet);
  }

  /** Overwrites the whole of a reused buffer, whatever it held. */
  method FillBuffer(buffer: array<Byte>, code: Byte, data: seq<Byte>)
    requires |data| < 0x1_0000 && USB_HEADER_SIZE <= buffer.Length
    modifies buffer
    ensures buffer[..] == Encode(code, data, buffer.Length)
  {
    var dataSizeBytes := U16ToBe(|data|);
    ghost var raw := Encode(code, data, buffer.Length);
    for i := 0 to buffer.Length
      invariant forall j :: 0 <= j < i ==> buffer[j] == raw[j]
    {
      buffer[i] :=
        if i == 0 then code
        else if i < USB_HEADER_SIZE then dataSizeBytes[i - 1]
        else if i - USB_HEADER_SIZE < |data| then data[i - USB_HEADER_SIZE]
        else 0;
    }
    assert buffer[..] == raw;
  }

  /** How a write ends; a short bulk transfer is tried again from the start. */
  datatype BulkEnd = AllTaken | BulkFailed | Retrying

  function EndOf(results: seq<Option<nat>>, size: nat): BulkEnd {
    if results == [] then Retrying
    else
      match results[0]
      case None => BulkFailed
      case Some(n) => if n == size then AllTaken else EndOf(results[1..], size)
  }

  /** What the device gets: a beginning of the packet for each short transfer, and then all of it. */
  function Transfers(raw: seq<Byte>, results: seq<Option<nat>>): seq<seq<Byte>>
    requires Possible(results, |raw|)
  {
    if results == [] || results[0].None? then []
    else [raw[..results[0].value]] + if results[0].value == |raw| then [] else Transfers(raw, results[1..])
  }

  predicate Possible(results: seq<Option<nat>>, size: nat) {
    forall i :: 0 <= i < |results| && results[i].Some? ==> results[i].value <= size
  }

  /** The first transfer that is a whole packet, or the length of the wire. */
  function FirstWhole(wire: seq<seq<Byte>>): (k: nat)
    ensures k <= |wire|
    ensures k < |wire| ==> |wire[k]| == USB_IN_PACKET_SIZE
    ensures forall i :: 0 <= i < k ==> |wire[i]| != USB_IN_PACKET_SIZE
  {
    if wire == [] || |wire[0]| == USB_IN_PACKET_SIZE then 0 else 1 + FirstWhole(wire[1..])
  }

  /** The answer for a transfer that is whole or fails. */
  function Once(transferred: bool, size: nat): seq<Option<nat>> {
    [if transferred then Some(size) else None]
  }

  lemma TransferredOnce(raw: seq<Byte>, transferred: bool)
    ensures Possible(Once(transferred, |raw|), |raw|)
    ensures Transfers(raw, Once(transferred, |raw|)) == if transferred then [raw] else []
    ensures EndOf(Once(transferred, |raw|), |raw|) == if transferred then AllTaken else BulkFailed
  {
    assert raw[..|raw|] == raw;
  }

  /** The Android reader refuses none of the transfers of a packet exactly when the packet is not retried. */
  lemma RetryIsRefused(raw: seq<Byte>, results: seq<Option<nat>>)
    requires |raw| == USB_OUT_PACKET_SIZE && Possible(results, |raw|)
    ensures (forall i :: 0 <= i < |Transfers(raw, results)| ==> !DecodeRead(Transfers(raw, results)[i]).UnexpectedSize?) <==>
            results == [] || results[0].None? || results[0].value == |raw|
  {
    hide DecodeOut;
    if results != [] && results[0].Some? {
      assert Transfers(raw, results)[0] == raw[..results[0].value];
      assert results[0].value == |raw| ==> raw[..|raw|] == raw;
      WholeIsRead(raw);
    }
  }

  lemma WholeIsRead(raw: seq<Byte>)
    requires |raw| == USB_OUT_PACKET_SIZE
    ensures !DecodeRead(raw).UnexpectedSize?
  {
  }

  /** The Linux end of the bulk endpoints. */
  class AndroidUsbAccessory {
    const buffer: array<Byte>
    const receiveBuffer: array<Byte>
    /** Transfers written to the device and not read there yet. */
    var outWire: seq<seq<Byte>>
    /** Transfers written by the device and not read here yet. */
    var inWire: seq<seq<Byte>>

    ghost predicate Valid()
      reads `inWire
    {
      && buffer.Length == USB_OUT_PACKET_SIZE
      && receiveBuffer.Length == USB_IN_PACKET_SIZE
      && buffer != receiveBuffer
      && forall i :: 0 <= i < |inWire| ==> |inWire[i]| <= USB_IN_PACKET_SIZE
    }

    /** No transfer from the device is short. */
    ghost predicate WholeTransfers()
      reads `inWire
    {
      forall i :: 0 <= i < |inWire| ==> |inWire[i]| == USB_IN_PACKET_SIZE
    }

    constructor ()
      ensures Valid() && fresh(buffer) && fresh(receiveBuffer) && outWire == inWire == []
    {
      buffer := new Byte[USB_OUT_PACKET_SIZE](i => 0);
      receiveBuffer := new Byte[USB_IN_PACKET_SIZE](i => 0);
      outWire, inWire := [], [];
    }

    /** The loop around the bulk write of one packet. */
    method WriteBulk(raw: seq<Byte>, results: seq<Option<nat>>) returns (r: BulkEnd)
      requires Possible(results, |raw|)
      modifies `outWire
      ensures r == EndOf(results, |raw|)
      ensures outWire == old(outWire) + Transfers(raw, results)
    {
      var i := 0;
      while i < |results|
        invariant 0 <= i <= |results|
        invariant EndOf(results, |raw|) == EndOf(results[i..], |raw|)
        invariant outWire + Transfers(raw, results[i..]) == old(outWire) + Transfers(raw, results)
      {
        assert results[i..][1..] == results[i + 1..];
        match results[i] {
          case None => return BulkFailed;
          case Some(size) =>
            ghost var more := Transfers(raw, results[i..]);
            ConcatAssociative(outWire, [raw[..size]], more[1..]);
            outWire := outWire + [raw[..size]];
            if size == |raw| {
              return AllTaken;
            }
        }
        i := i + 1;
      }
      r := Retrying;
    }

    method SendPacket(packetType: OutType, data: seq<Byte>, results: seq<Option<nat>>) returns (r: BulkEnd)
      requires Valid() && |data| < 0x1_0000 && Possible(results, USB_OUT_PACKET_SIZE)
      modifies `outWire, buffer
      ensures r == EndOf(results, USB_OUT_PACKET_SIZE)
      ensures outWire == old(outWire) + Transfers(Encode(packetType.Code(), data, USB_OUT_PACKET_SIZE), results)
    {
      FillBuffer(buffer, packetType.Code(), data);
      r := WriteBulk(buffer[..], results);
    }

    method SendUsbPacket(packet: UsbPacket, results: seq<Option<nat>>) returns (r: BulkEnd)
      requires Valid() && packet.Valid() && Possible(results, USB_OUT_PACKET_SIZE)
      modifies `outWire
      ensures r == EndOf(results, USB_OUT_PACKET_SIZE)
      ensures outWire == old(outWire) + Transfers(packet.data[..], results)
    {
      r := WriteBulk(packet.data[..], results);
    }

    /** Short transfers are skipped; a read fails when no more transfers come. */
    method ReceivePacket() returns (r: Decoded<InType>)
      requires Valid()
      modifies `inWire, receiveBuffer
      ensures Valid()
      ensures var wire := old(inWire);
              var k := FirstWhole(wire);
              if k == |wire| then r == ReadFailed && inWire == []
              else r == DecodeIn(wire[k]) && inWire == wire[k + 1..]
    {
      hide DecodeIn, Encode;
      ghost var wire, taken := inWire, 0;
      while inWire != []
        invariant taken <= |wire| && inWire == wire[taken..]
        invariant FirstWhole(wire) == taken + FirstWhole(wire[taken..])
        decreases |inWire|
      {
        var transfer := inWire[0];
        inWire := inWire[1..];
        ReadBulk(transfer);
        assert wire[taken..][1..] == wire[taken + 1..];
        if |transfer| == receiveBuffer.Length {
          assert receiveBuffer[..] == transfer;
          r := DecodeBuffer();
          return;
        }
        taken := taken + 1;
      }
      r := ReadFailed;
    }

    method ReadBulk(transfer: seq<Byte>)
      requires |transfer| <= receiveBuffer.Length
      modifies receiveBuffer
      ensures receiveBuffer[..|transfer|] == transfer
    {
      for i := 0 to |transfer|
        invariant forall j :: 0 <= j < i ==> receiveBuffer[j] == transfer[j]
      {
        receiveBuffer[i] := transfer[i];
      }
    }

    method DecodeBuffer() returns (r: Decoded<InType>)
      requires receiveBuffer.Length == USB_IN_PACKET_SIZE
      ensures r == DecodeIn(receiveBuffer[..])
    {
      var packetSize := U16FromBe([receiveBuffer[1], receiveBuffer[2]]);
      assert [receiveBuffer[1], receiveBuffer[2]] == receiveBuffer[..][1..3];
      if receiveBuffer[0] == 1 || receiveBuffer[0] == 2 {
        if USB_HEADER_SIZE + packetSize > receiveBuffer.Length {
          return Overrun;
        }
        var packet := if receiveBuffer[0] == 1 then InEmpty else InJsonStream;
        r := Received(packet, receiveBuffer[USB_HEADER_SIZE..USB_HEADER_SIZE + packetSize]);
      } else {
        r := UnknownType(receiveBuffer[0]);
      }
    }
  }

  /** The Android reading end. */
  class AccessoryReader {
    const buffer: array<Byte>

    ghost predicate Valid() {
      buffer.Length == USB_OUT_PACKET_SIZE
    }

    constructor ()
      ensures Valid() && fresh(buffer)
    {
      buffer := new Byte[USB_OUT_PACKET_SIZE](i => 0);
    }

    method ReadPacket(transfer: seq<Byte>) returns (r: Decoded<OutType>)
      requires Valid() && |transfer| <= USB_OUT_PACKET_SIZE
      modifies buffer
      ensures r == DecodeRead(transfer)
    {
      for i := 0 to |transfer|
        invariant forall j :: 0 <= j < i ==> buffer[j] == transfer[j]
      {
        buffer[i] := transfer[i];
      }
      if |transfer| != buffer.Length {
        return UnexpectedSize(|transfer|);
      }
      assert buffer[..] == transfer;
      var code := buffer[0];
      var packetType;
      if code == OutEmpty.Code() {
        packetType := OutEmpty;
      } else if code == OutJsonStream.Code() {
        packetType := OutJsonStream;
      } else if code == OutAudioData.Code() {
        packetType := OutAudioData;
      } else if code == OutNextIsWrite.Code() {
        packetType := OutNextIsWrite;
      } else {
        return UnknownType(code);
      }
      var packetSize := U16FromBe([buffer[1], buffer[2]]);
      assert [buffer[1], buffer[2]] == transfer[1..3];
      if USB_HEADER_SIZE + packetSize > buffer.Length {
        return Overrun;
      }
      r := Received(packetType, buffer[USB_HEADER_SIZE..USB_HEADER_SIZE + packetSize]);
    }
  }

  /** The Android writing end. */
  class AccessoryWriter {
    const buffer: array<Byte>

    ghost predicate Valid() {
      buffer.Length == USB_IN_PACKET_SIZE
    }

    constructor ()
      ensures Valid() && fresh(buffer)
    {
      buffer := new Byte[USB_IN_PACKET_SIZE](i => 0);
    }

    /** `result` is what the write of the buffer returns; only a write of all of it sends the packet. */
    method WritePacket(packetType: InType, data: seq<Byte>, result: Option<nat>) returns (sent: Option<seq<Byte>>)
      requires Valid() && |data| < 0x1_0000
      modifies buffer
      ensures sent == if result == Some(USB_IN_PACKET_SIZE)
                      then Some(Encode(packetType.Code(), data, USB_IN_PACKET_SIZE)) else None
    {
      FillBuffer(buffer, packetType.Code(), data);
      if result.None? || result.value != buffer.Length {
        return None;
      }
      sent := Some(buffer[..]);
    }
  }

  class UsbPacket {
    const data: array<Byte>

    ghost predicate Valid()
      reads data
    {
      && data.Length == USB_OUT_PACKET_SIZE
      && DataSize(data[..]) <= USB_PACKET_MAX_DATA_SIZE
    }

    constructor ()
      ensures Valid() && fresh(data)
      ensures data[..] == Encode(USB_EMPTY_PACKET, [], USB_OUT_PACKET_SIZE)
    {
      data := new Byte[USB_OUT_PACKET_SIZE](i => 0);
      new;
      data[0] := USB_EMPTY_PACKET;
      assert data[..] == Encode(USB_EMPTY_PACKET, [], USB_OUT_PACKET_SIZE);
      assert data[..][1..3] == U16ToBe(0);
    }

    method SetPacketType(packetType: Byte)
      requires Valid()
      modifies data
      ensures Valid() && data[..] == old(data[..])[0 := packetType]
    {
      data[0] := packetType;
      assert data[..][1..3] == old(data[..])[1..3];
    }

    method SetSize(size: U16)
      requires Valid() && size <= USB_PACKET_MAX_DATA_SIZE
      modifies data
      ensures Valid() && DataSize(data[..]) == size
      ensures data[..] == old(data[..1]) + U16ToBe(size) + old(data[3..])
    {
      var sizeBytes := U16ToBe(size);
      data[1] := sizeBytes[0];
      data[2] := sizeBytes[1];
      assert data[..][1..3] == sizeBytes;
    }

    /** The data bytes that the size field announces. */
    function Data(): (bytes: seq<Byte>)
      requires Valid()
      reads data
      ensures |bytes| == DataSize(data[..])
    {
      data[USB_HEADER_SIZE..USB_HEADER_SIZE + DataSize(data[..])]
    }

    /** Copies into the announced data bytes as far as both reach. */
    method CopyIn(source: seq<Byte>)
      requires Valid()
      modifies data
      ensures Valid() && DataSize(data[..]) == old(DataSize(data[..]))
      ensures var n := if |source| < |Data()| then |source| else |Data()|;
              data[..] == old(data[..3]) + source[..n] + old(data[3 + n..])
    {
      var size := DataSize(data[..]);
      var n := if |source| < size then |source| else size;
      for i := 0 to n
        invariant forall j :: 0 <= j < i ==> data[3 + j] == source[j]
        invariant forall j :: 0 <= j < data.Length && !(3 <= j < 3 + i) ==> data[j] == old(data[j])
      {
        data[3 + i] := source[i];
      }
      assert data[..][1..3] == old(data[..])[1..3];
      assert data[..] == old(data[..3]) + source[..n] + old(data[3 + n..]);
    }
  }

  /** Announcing the size of a packet and copying it in encodes it. */
  lemma Assembled(packet: seq<Byte>)
    requires |packet| <= USB_PACKET_MAX_DATA_SIZE
    ensures var blank := Encode(USB_EMPTY_PACKET, [], USB_OUT_PACKET_SIZE);
            var sized := blank[..1] + U16ToBe(|packet|) + blank[3..];
            sized[..3] + packet + sized[3 + |packet|..] == Encode(USB_EMPTY_PACKET, packet, USB_OUT_PACKET_SIZE)
  {
    var blank := Encode(USB_EMPTY_PACKET, [], USB_OUT_PACKET_SIZE);
    var sized := blank[..1] + U16ToBe(|packet|) + blank[3..];
    assert sized[..3] == [USB_EMPTY_PACKET] + U16ToBe(|packet|);
    assert sized[3 + |packet|..] == Repeat(0, USB_PACKET_MAX_DATA_SIZE - |packet|);
  }

  datatype UsbRecv = Size(size: nat) | BrokenPipe | NoData

  /** Both ends of the channel between the USB thread and the audio code (src/connection/data/usb.rs). */
  class UsbDataConnection {
    var queue: seq<UsbPacket>
    var disconnected: bool
    var timeout: bool
    var nonblocking: bool

    ghost predicate Valid()
      reads this, queue, set p | p in queue :: p.data
    {
      forall p :: p in queue ==> p.Valid()
    }

    /** The packets waiting in the channel. */
    ghost function Waiting(): seq<seq<Byte>>
      requires Valid()
      reads this, queue, set p | p in queue :: p.data
    {
      var q := queue;
      seq(|q|, i requires 0 <= i < |q| && q[i].Valid() reads set p | p in q :: p.data => q[i].Data())
    }

    constructor ()
      ensures Valid() && Waiting() == [] && !disconnected && !timeout && !nonblocking
    {
      queue := [];
      disconnected, timeout, nonblocking := false, false, false;
    }

    method SendPacket(packet: seq<Byte>) returns (ok: bool)
      requires Valid() && |packet| <= USB_PACKET_MAX_DATA_SIZE
      modifies `queue
      ensures Valid()
      ensures ok == !disconnected
      ensures ok ==> Waiting() == old(Waiting()) + [packet]
      ensures ok ==> fresh(queue[|queue| - 1]) && fresh(queue[|queue| - 1].data)
      ensures ok ==> queue[|queue| - 1].data[..] == Encode(USB_EMPTY_PACKET, packet, USB_OUT_PACKET_SIZE)
      ensures !ok ==> queue == old(queue)
    {
      hide Encode;
      Assembled(packet);
      var usbPacket := new UsbPacket();
      usbPacket.SetSize(|packet|);
      ghost var sized := usbPacket.data[..];
      usbPacket.CopyIn(packet);
      assert packet[..|packet|] == packet;
      assert usbPacket.data[..] == sized[..3] + packet + sized[3 + |packet|..];
      assert usbPacket.Data() == packet;
      if disconnected {
        return false;
      }
      queue := queue + [usbPacket];
      ok := true;
    }

    /** A blocking call returns when a packet is there or the other end is gone. */
    method RecvPacket(buffer: array<Byte>, ready: bool) returns (r: UsbRecv)
      requires Valid() && forall p :: p in queue ==> p.data != buffer
      modifies `queue, buffer
      ensures Valid()
      ensures (nonblocking || timeout) && !ready ==> r == NoData && queue == old(queue) && buffer[..] == old(buffer[..])
      ensures !((nonblocking || timeout) && !ready) && old(queue) == [] ==>
                r == BrokenPipe && queue == [] && buffer[..] == old(buffer[..])
      ensures !((nonblocking || timeout) && !ready) && old(queue) != [] ==>
                && queue == old(queue)[1..]
                && var packet := old(Waiting())[0];
                   var n := if |packet| < buffer.Length then |packet| else buffer.Length;
                   && r == UsbRecv.Size(|packet|)
                   && buffer[..] == packet[..n] + old(buffer[n..])
    {
      if (nonblocking || timeout) && !ready {
        return NoData;
      }
      if queue == [] {
        return BrokenPipe;
      }
      var packet := queue[0];
      queue := queue[1..];
      var data := packet.Data();
      var n := if |data| < buffer.Length then |data| else buffer.Length;
      for i := 0 to n
        invariant queue == old(queue)[1..]
        invariant forall j :: 0 <= j < i ==> buffer[j] == data[j]
        invariant forall j :: i <= j < buffer.Length ==> buffer[j] == old(buffer[j])
      {
        buffer[i] := data[i];
      }
      assert buffer[..] == data[..n] + old(buffer[n..]);
      r := UsbRecv.Size(|data|);
    }
  }
}
