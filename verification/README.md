# Jonect in Dafny

libjonect streams PCM audio from a Linux machine to an Android player over TCP, UDP or
USB, with a stream of JSON messages beside it. This project models the parts of it
whose correctness depends on several pieces fitting together, and proves it.

* **From capture to speaker.** `PcmCapture` cuts and numbers the captured bytes,
  `TcpData` and `UsbProtocol` carry the packets (`DataConnection` has what they share),
  `AudioPackets` orders the packets of an unreliable connection, `DataReader` cuts them
  into blocks, `Playback` and `CallbackMode` are the speaker callback. `PcmPipeline` puts
  them together: what is heard is silence and then a prefix of what was captured.
  `TornStream` says exactly when that is so over a nonblocking TCP socket.
* **The JSON stream.** `JsonStream` is the length-prefixed message stream and the connection
  task that reads and writes it. Over USB it travels between audio packets: `JsonTunnel` is
  one direction of that as a transition system, `UsbLinux` and `UsbAndroid` are the
  threads of the two ends, and `UsbTunnel` runs all of them together.
* **Connections and resources.** `ConnectionManager`, `Devices`, `OboeLogic` and the
  router in `Messages` are the components; `Lifecycle` lets them run in any order over
  their queues, and `LifecycleSafety` proves what holds in every run. `StreamDelivery`
  follows the data streams through one, `AudioOrigin` each start of audio back to the
  request and the stream that it came from, and `TaskLife` what the device tasks are told
  and do. `LifecycleRuns` has runs that reach what the results leave possible.

Components that change their fields are classes whose methods are proved against
functions on values, and most theorems are about those functions. For the USB tunnel the
objects themselves run: `UsbTunnel.BothEnds.Run` keeps both directions equal to runs of
the transition system, in every interleaving. In `Lifecycle` a step is the function that
the method of its component is proved against. Everything outside is a parameter:
fragments, receive results, the outcome of each send, the moments at which packets arrive
and flags are seen, and the interleaving of the components. A link or channel of the
receiver holds everything that is still going to arrive on it, so that one prefix
statement covers every moment of a run.

Facts that the proofs bring out:

* The wrap flag of the packet order is bit 15 of a 32-bit counter. Within 65536 packets
  this is serial number arithmetic; an in-order run without any loss reports a loss at
  packet 65536, and from packet 131072 on every second block of 32768 packets is thrown
  away (`InOrderVerdicts`, `InOrderKeepsAll`), and where a window ends two neighbours that
  have changed places are both kept (`IncreasingExactly`, `NeighboursSwapped`). The comment
  at src/audio/oboe.rs:595 suspects such a bug. With the flag in the top bit the same code
  is right (`InOrderTopBitNormal`).
* A loss across the wrap is counted with a constant error, even with the top bit, where
  it is one too small (`LossAccounting`).
* The TCP socket of the sender is nonblocking, and a full one that has taken a part of a
  frame counts as a dropped packet: the receiver then plays headers as audio. Dropping is
  harmless exactly when nothing of the frame was taken (`FullSocket`). In the same way a
  receiver that looks while only a beginning of the first frame is there loses it and can
  be made to abort (`FirstLook`).
* A UDP request takes its resource before its socket exists. Without a socket the
  resource stays held and silent until the connection is removed (`HeldSilently`,
  `HeldUntilRemoved`, with a run in `HoldsSilently`).
* A TCP stream opened for one connection is attached by address when it arrives: with two
  devices behind one address by then it can go to the other one, also when there was only
  one at the time of the request (`StreamDelivered`, with a run in `StreamOvertaken`).
* A peer that names an unusual sample rate ends its task and leaves the entry of the task
  behind, and the next ping of all devices ends the device manager (`FaultsExactly`, with
  a run in `PingsTheDead`).

## Model

| member | source | states |
|---|---|---|
| `PcmCapture.PAStreamManager.RequestStartRecordStream` | src/audio/pulseaudio/stream.rs:161-166 | a new recording starts with empty buffers, packet number 0 and recording enabled, whatever state an earlier error left |
| `PcmCapture.PAStreamManager.HandleData` | src/audio/pulseaudio/stream.rs:201-237 | every attempt takes the next 32-bit number, wrapping, also when the packet is then dropped; only a full socket counts as a drop, any other error is reported; a TCP connection has been written the frames of the packets sent and the parts of frames that it took of the others |
| `PcmCapture.PAStreamManager.PushByte` | src/audio/pulseaudio/stream.rs:255-269 | a byte waits in the buffer or completes the next packet; after a socket error the failed payload is still in the buffer |
| `PcmCapture.PAStreamManager.HandleRawPcmData` | src/audio/pulseaudio/stream.rs:240-272 | for every fragmentation, the packets attempted are a function of the captured bytes alone; an odd fragment is refused before anything is taken |
| `PcmCapture.PAStreamManager.HandleRecordingStreamRead` | src/audio/pulseaudio/stream.rs:321-399 | all bytes PulseAudio offers are taken unless recording is disabled; it stays enabled if and only if no peek, discard or send fails and no fragment is odd; while it is enabled the buffer holds less than one payload, across errors and restarts; the first error disables recording and disconnects the stream once |
| `PcmCapture.Conservation` | src/audio/pulseaudio/stream.rs:240-272 | payloads attempted, then the residual, are exactly the input; packet i has 484 bytes, its big-endian number i modulo 2^32 and then payload i |
| `PcmCapture.SentOrDropped` | src/audio/pulseaudio/stream.rs:226-234 | without a socket error every attempt is either sent or counted as dropped |
| `PcmCapture.UntornWire` | src/connection/data/tcp.rs:77-88 | if no frame is cut off before the last one, the bytes written are the frames of the packets sent and then a part of the last attempt |
| `TcpData.TcpDataConnection.SendPacket` | src/connection/data/tcp.rs:77-88 | one frame is appended to the stream, or, when the socket is full or broken, the part of it that was taken |
| `TcpData.TcpDataConnection.RecvPacket` | src/connection/data/tcp.rs:104-114 | reads the part of the packet that fits the buffer and leaves everything after it in the stream, the rest of the buffer untouched; a nonblocking call that cannot finish has lost the bytes it read |
| `TcpData.ReceiveFrame` | src/connection/data/tcp.rs:104-114 | a packet is read back whole, with the stream at the next frame, if and only if it fits the buffer; otherwise its unread bytes stay at the head |
| `TcpData.FramingRoundTrip` | src/connection/data/tcp.rs:77-114 | repeated receives of the frames of any packets that fit give exactly those packets |
| `TcpData.BrokenStream` | src/connection/data/tcp.rs:104-114 | any prefix of the byte stream, cut inside a frame too, and also with an unfinished frame at its end, delivers the first packets whole, all of them when the stream holds all frames, and then an error |
| `UsbProtocol.UsbPacket.SetSize` | src/connection/usb/protocol.rs:74-80 | the two size bytes change and nothing else |
| `UsbProtocol.UsbPacket.CopyIn` | src/connection/data/usb.rs:86-88 | the announced data bytes are overwritten as far as both sides reach; header and padding are kept |
| `UsbProtocol.Layout` | src/connection/usb/protocol.rs:6-40 | for all packets of both directions, the meaning of each byte: which types there are, the big-endian size, the data, and zeros behind it; exactly when a packet is read, of unknown type, or overrun |
| `Bytes.BigEndian` | src/connection/usb/protocol.rs:74-86 | the values of the big-endian header fields, byte by byte, with their sign |
| `UsbProtocol.OutRoundTrip` | src/connection/usb/android/accessory.rs:42-71 | type and data of a packet to Android are read back if and only if the data has at most 509 bytes; a longer size field overruns the packet |
| `UsbProtocol.InRoundTrip` | src/connection/usb/libusb/accessory.rs:152-181 | the same to Linux with at most 61 bytes |
| `UsbProtocol.AudioRoundTrip` | src/connection/usb/libusb.rs:421-425 | an audio packet queued as an empty one and relabelled on the way out is read as audio with the same bytes |
| `UsbProtocol.AndroidUsbAccessory.SendPacket` | src/connection/usb/libusb/accessory.rs:113-136 | the whole reused buffer is overwritten by the encoding of the packet, which is written again after each short transfer until one takes it all or fails |
| `UsbProtocol.AndroidUsbAccessory.SendUsbPacket` | src/connection/usb/libusb/accessory.rs:139-149 | the raw packet is transferred unchanged, with the same retries |
| `UsbProtocol.AndroidUsbAccessory.ReceivePacket` | src/connection/usb/libusb/accessory.rs:152-181 | short transfers are skipped, and the first whole one is decoded: type, data of the announced size, or the error for an unknown type; when no more come the read fails |
| `UsbProtocol.RetryIsRefused` | src/connection/usb/android/accessory.rs:42-71 | the Android reader refuses none of the transfers of a packet if and only if the packet is not retried |
| `UsbProtocol.AccessoryReader.ReadPacket` | src/connection/usb/android/accessory.rs:42-71 | the same for the Android reader, with the error for a read that is not a whole packet |
| `UsbProtocol.AccessoryWriter.WritePacket` | src/connection/usb/android/accessory.rs:95-114 | the whole reused buffer is overwritten by the encoding of the packet, which is sent only when the device takes all of it |
| `UsbProtocol.UsbDataConnection.SendPacket` | src/connection/data/usb.rs:80-91 | the packet waits at the end of the channel as one raw packet with exactly its bytes, unless the other end is gone |
| `UsbProtocol.UsbDataConnection.RecvPacket` | src/connection/data/usb.rs:146-170 | takes the oldest packet; reports its full length and copies what fits |
| `AudioPackets.AudioPacketManager.CheckPacket` | src/audio/oboe.rs:735-791 | the in-place update is the verdict function on all states and all 32-bit counters |
| `AudioPackets.SerialArithmetic` | src/audio/oboe.rs:735-791 | for counters below twice the wrap bit the test is serial number comparison (section 3.2 of RFC 1982): kept if and only if equal or serially after, undefined distance dropped, position becomes the successor |
| `AudioPackets.ReportedLoss` | src/audio/oboe.rs:756-784 | the loss reported for one packet is the number missing, plus a constant error across the wrap; the subtraction does not underflow there |
| `AudioPackets.LossAccounting` | src/audio/oboe.rs:597-604 | over any run, accepted plus missing packets are the advance of the position, and the total reported is the total missing plus the constant error for each loss across the wrap |
| `AudioPackets.LossCountExact` | src/audio/oboe.rs:597-604 | the loss counter is exact if and only if no loss was seen across the wrap |
| `AudioPackets.InOrderVerdicts` | src/audio/oboe.rs:717-774 | the verdict on every packet of a loss-free in-order run of all 2^32 counters: packet 65536 is the first reported as lost, and from 131072 on half of the packets are discarded |
| `AudioPackets.InOrderKeepsAll` | src/audio/oboe.rs:717-774 | such a run is played in full if and only if it has at most 131072 packets |
| `AudioPackets.InOrderWrapUnderflows` | src/audio/oboe.rs:775-779 | after the last counter, packet 0 underflows the loss subtraction |
| `AudioPackets.InOrderTopBitNormal` | src/audio/oboe.rs:717-774 | the same algorithm with the flag in the top bit finds every packet normal, for all 2^32 counters |
| `AudioPackets.LatePackets` | src/audio/oboe.rs:735-791 | an old packet is kept if and only if it is late by more than half a window; a new one if and only if it is less than half a window ahead |
| `AudioPackets.KeptIncreasing` | src/audio/oboe.rs:735-791 | under any loss, duplication and reordering in which no packet is more than half a window behind the expected number, the numbers kept strictly increase, and a packet is kept exactly when its number is new and less than half a window ahead |
| `AudioPackets.IncreasingExactly` | src/audio/oboe.rs:735-791 | for all 32-bit counters, under any loss, duplication and reordering: the numbers kept strictly increase if and only if no packet arrives stale, which is stated in numbers |
| `AudioPackets.LateExactly` | src/audio/oboe.rs:735-791 | within one window that is: if and only if no packet is more than half a window behind the expected number |
| `AudioPackets.NeighboursSwapped` | src/audio/oboe.rs:735-791 | at the edge of a window two neighbours that have changed places are both kept |
| `AudioPackets.BoundedIsLate` | src/audio/oboe.rs:735-791 | a delay of less than half a window between any two packets, kept or not, is enough |
| `DataReader.DataReaderThread.OrderPacket` | src/audio/oboe.rs:594-606 | the packet manager and the loss counter follow the run; a reliable connection is not checked |
| `DataReader.DataReaderThread.SendBlock` | src/audio/oboe.rs:618-646 | a full channel is retried; a block is queued once, or never after 500 refusals in a row |
| `DataReader.DataReaderThread.CountBlock` | src/audio/oboe.rs:648-656 | BufferingDone is sent at exactly one queue length: the initial block count, or, if that is not positive, the length at which the 32-bit counter wraps to it |
| `DataReader.BurstsBuffered` | src/audio/oboe.rs:551-552 | the blocks buffered at first hold the frames of two bursts, up to less than one block, and what becomes of a product that wraps |
| `Bytes.SamplesRoundTrip` | src/audio/oboe.rs:608-612 | decoding gives back every sequence of little-endian samples |
| `Bytes.BytesRoundTrip` | src/audio/oboe.rs:608-612 | and no two sequences of whole samples are decoded as the same |
| `DataReader.DataReaderThread.DrainBlocks` | src/audio/oboe.rs:613-661 | blocks are moved in order until less than one is left; it ends before that only when a look at the quit flag, one after each block, has seen it, or when the channel was full 500 times in a row |
| `DataReader.DataReaderThread.HandlePacket` | src/audio/oboe.rs:585-661 | one packet keeps the account of the run; the thread panics if and only if the packet has no counter, or is to be played and has an odd number of bytes; it finishes only when the last look, and no one before it, saw the quit flag |
| `DataReader.DataReaderThread.DataReadingLogic` | src/audio/oboe.rs:530-664 | for any receive results, queue full answers and quit flags: blocks queued are the 16-sample blocks of the decoded kept packets, the residual is the rest, BufferingDone is sent at most once; there is a look at the quit flag after each block and whenever nothing has arrived; the thread finishes only after a failed receive, with everything queued, when the last look saw the flag, or when the channel stayed full, and then packets are only thrown away |
| `DataReader.ReliableKeepsAll` | src/audio/oboe.rs:585-606 | on a reliable connection every packet is decoded, whatever its number |
| `DataReader.DataReaderThread.ReadPacketsAndWaitQuit` | src/audio/oboe.rs:676-701 | packets are read and thrown away, with a look at the quit flag after each, exactly until a receive fails or a look sees it |
| `CallbackMode.AudioBuffer.AddNewAudioPacket` | src/audio/oboe/callback_mode.rs:56-91 | a payload is queued before playing starts and overwrites the buffer after it |
| `CallbackMode.CallbackState.GetNewData` | src/audio/oboe/callback_mode.rs:142-210 | the step in place is the chunk function of the model, with all its errors and the switch to blocking mode |
| `CallbackMode.WriteData` | src/audio/oboe/callback_mode.rs:299-336 | the loop fills the slice with the samples of its chunks, sets the error flag exactly when it stops, and terminates |
| `Playback.Pull` | src/audio/oboe/callback_mode.rs:142-210 | a chunk is never longer than the request, and never empty when samples are requested |
| `Playback.UsbCallEnds` | src/audio/oboe/callback_mode.rs:142-210 | exactly when one call ends the playing over USB: only with nothing left to play, by a panic on a packet that is too short or too long, and by an error on an empty one, at the end of the channel, and on none once playing has started |
| `Playback.TcpCallEnds` | src/audio/oboe/callback_mode.rs:142-210 | the same over TCP, for every stream and whatever part of it has arrived: a panic on a frame of one to three bytes, an error on an empty one, at the end of the stream, and on no whole frame once playing has started |
| `Playback.NoStaleSamples` | src/audio/oboe/callback_mode.rs:56-91 | a payload overwrites all of the one before it if and only if its packet has at least 480 bytes of audio |
| `Playback.PullTracked` | src/audio/oboe/callback_mode.rs:142-210 | between calls the queue of the buffer is empty, so no call in the middle of a payload moves on; each payload is played once and in order |
| `Playback.DirectPlayback` | src/audio/oboe/callback_mode.rs:299-336 | direct mode, for all callback sizes and all timings in which the first look that finds anything finds a whole frame: no panic, and output is whole payloads of silence, one for each look up to the one that finds a packet, then a prefix of the audio of the packets; until it stops, exactly the packets taken and the part written of the last one; it stops only when all of the audio has been played |
| `Playback.BlockPlayback` | src/audio/oboe/callback_mode.rs:299-336 | block mode: output is one block of silence, then a prefix of the blocks; it stops only when all of them have been played |
| `PcmPipeline.OverTcp` | src/audio/pulseaudio/stream.rs:201-272 | capture to speaker over TCP: for all inputs, drops, cuts of the stream, callback sizes and timings in which neither end stops inside a frame, output is silence then a prefix of the audio sent, and without drops a prefix of the decoded input; it stops only when all packets that came whole have been heard, which is all of the audio of a stream that came to its end |
| `PcmPipeline.FromTcpSender` | src/audio/pulseaudio/stream.rs:201-272 | the same from the sender object: what its calls have written to the connection is the stream that plays, and a drop count of 0 means the whole input |
| `PcmPipeline.SamplesOverTcp` | src/audio/oboe.rs:608-612 | in terms of samples: without drops what is heard over TCP is silence and then a prefix of the samples that were captured |
| `TornStream.FullSocket` | src/connection/data/tcp.rs:29-34 | packets dropped by a full socket do no harm, for all inputs, timings and callbacks, if and only if the socket took nothing of their frames |
| `TornStream.HeaderIsHeard` | src/connection/data/tcp.rs:77-88 | after a frame cut off anywhere inside, two payloads of silence are heard with a sound: a byte of the next header |
| `TornStream.FirstLook` | src/audio/oboe.rs:396-411 | the audio is right for all inputs, later timings and callbacks if and only if the first nonblocking receive that finds anything finds a whole frame; after any smaller beginning the callback can abort |
| `TornStream.LooksTooEarly` | src/audio/oboe/callback_mode.rs:155-178 | for every smaller beginning, a run of a real sender in which the callback then reads a packet of one byte and aborts |
| `PcmPipeline.LosslessAudio` | src/audio/pulseaudio/stream.rs:240-272 | without drops the packets from any one on carry exactly the input from that payload on |
| `PcmPipeline.OverUsb` | src/connection/usb/libusb.rs:421-425 | the same over USB, from the sender through the threads of both ends in any interleaving: silence and then a prefix of the audio sent, from the packet on at which the player was attached, and all of what arrived when playing stops |
| `PcmPipeline.CarriedOverUsb` | src/connection/usb/protocol.rs:74-80 | every audio packet fits its transfer and the buffer of the callback, and what arrives plays as silence and then a prefix of its audio, all of it when playing stops |
| `PcmPipeline.OverUdp` | src/audio/oboe.rs:558-661 | over UDP, under any loss, duplication and reordering of all 2^32 numbers: no panic, and output is 16 samples of silence then a prefix of the decoded payloads of the packets kept, all blocks that were queued when playing stops; these are in the order of the sender if and only if no packet arrives stale |
| `PcmPipeline.InOrderOverUdp` | src/audio/oboe.rs:594-606 | without loss and in order, all of the input is passed on if and only if it has at most 131072 packets |
| `JsonStream.Parse` | src/utils.rs:272-315 | reading any bytes ends in a reader that waits for at least one more byte, or has stopped on an error |
| `JsonStream.ParseAppend` | src/utils.rs:272-315 | reading one more piece of any size is parsing one more piece: fragmentation does not matter |
| `JsonStream.ParseMonotonic` | src/utils.rs:272-315 | more bytes only add events, and nothing follows an error |
| `JsonStream.RoundTrip` | src/utils.rs:272-347 | every sequence of messages is decoded as exactly that sequence |
| `JsonStream.PrefixRoundTrip` | src/utils.rs:272-347 | any beginning of the stream decodes to a beginning of the messages, without an error |
| `JsonStream.MalformedStops` | src/utils.rs:272-315 | after any messages a negative length, or a body that is not a message, is reported with its cause as the last event, and nothing behind it is read |
| `JsonStream.WritesCatchUp` | src/utils.rs:317-347 | the bytes written are at least what `LeastWritten` counts, and after as many writing turns in a row as there are bytes left that is everything accepted |
| `JsonStream.Connection.ReadMessage` | src/utils.rs:272-315 | the pinned reading future, polled any number of times, reports exactly the meaning of the bytes consumed; each read takes at least one byte, and it fails only at the end of the stream |
| `JsonStream.Connection.HandleWriting` | src/utils.rs:318-347 | one write of the pinned writing future: it takes the next message when it is done with the last one; a message that cannot be serialized or is longer than an i32 writes nothing; otherwise the frame grows by at least one byte unless the socket is broken |
| `JsonStream.Connection.ConnectionTask` | src/utils.rs:206-269 | for every order of reading, partial writing, new messages, errors and quit: events sent up are the meaning of the bytes consumed, plus at most one failure, or without the last one when a quit wins against its send, and the bytes written are frames of the accepted messages in order, at most the last one cut off; the task ends exactly with a quit request or a failure that it sends up with its cause; until then every reading turn takes bytes and every writing turn writes some |
| `UsbLinux.AccessoryConnection.UpdateConnection` | src/connection/usb/libusb.rs:427-447 | at most 509 bytes leave the socket in one packet, never an empty one |
| `UsbLinux.AccessoryConnection.WriteJson` | src/connection/usb/libusb.rs:455-484 | the write loop hands over a beginning of the data, whatever the partial writes, at least one byte with each accepted write, and can be entered again with the rest; it fails only on a broken write and finds the peer gone only when it is |
| `UsbLinux.AccessoryConnection.ReceiveNext` | src/connection/usb/libusb.rs:449-486 | one transfer is taken and its data handed to the local socket as far as that takes it; an error has its cause in the writes or in a transfer that cannot be decoded, and a size past the packet panics |
| `UsbLinux.AccessoryConnection.SendAudioPacket` | src/connection/usb/libusb.rs:421-425 | only the type byte of the queued packet changes |
| `UsbLinux.LibUsbLogic.PollJson` | src/connection/usb/libusb.rs:218-233 | one transfer in, then at most one JSON packet out; the connection is left only after a transfer that failed or could not be decoded, a socket error or a closed peer, inside the write loop nothing else happens, and only a size past the packet aborts |
| `UsbLinux.LibUsbLogic.Update` | src/connection/usb/libusb.rs:189-260 | the whole next mode for every event; audio without a connection is dropped, with one it is transferred as audio; a JSON poll is one round, a device poll, USB event or quit changes nothing of a live connection, and the request to receive audio aborts |
| `UsbLinux.LibUsbLogic.Run` | src/connection/usb/libusb.rs:289-313 | over any events, each handled in turn as `Update` says, wire and sockets together hold the same two streams while the connection lasts; it ends only with an event that can end it, and then the streams are only cut off |
| `UsbAndroid.ReaderLogic.WriteJson` | src/connection/usb/android/read.rs:117-143 | nonempty data never looks like a closed socket unless the peer closed it; empty data always would; each accepted write hands over at least one byte, and only a broken write fails |
| `UsbAndroid.ReaderLogic.Run` | src/connection/usb/android/read.rs:88-161 | JSON data goes to the socket and audio to the channel, in order, whatever lies between; every round goes on unless it has a cause to end, which its result names |
| `UsbAndroid.AudioSinceAttached` | src/connection/usb/android/read.rs:95-152 | a channel that stays open holds every audio packet since it was attached |
| `UsbAndroid.WriterLogic.TakeTurn` | src/connection/usb/android/write.rs:88-129 | each round sends one packet: up to 61 bytes of the stream, or an empty packet when there are none; audio to send aborts |
| `UsbAndroid.WriterLogic.Run` | src/connection/usb/android/write.rs:88-129 | everything read from the socket is on the wire, in order, at every round; each round sends one packet, with at least one byte when there is something to read, and the thread ends only for the cause that its result names |
| `JsonTunnel.TunnelTransparent` | src/connection/usb/android/read.rs:102-155 | one direction as a transition system, at every step of every run: bytes written to the far socket are a prefix of those read from the near one, and no JSON packet is empty |
| `JsonTunnel.StackTransparent` | src/utils.rs:206-347 | messages framed, tunnelled and read in any pieces are decoded as a prefix of the messages, without an error, in every reachable state |
| `UsbTunnel.LinuxJsonUp` | src/connection/usb/libusb.rs:449-486 | a JSON round of the Linux thread is a receive or a part of the writes of the transition system towards Linux |
| `UsbTunnel.LinuxJsonDown` | src/connection/usb/libusb.rs:427-447 | and at most one read step of the one towards Android |
| `UsbTunnel.AndroidReadDown` | src/connection/usb/android/read.rs:88-161 | a round of the Android reading thread is a receive and a part of its writes |
| `UsbTunnel.AndroidWriteUp` | src/connection/usb/android/write.rs:88-129 | a round of the Android writing thread is one read step, or one step of an empty packet |
| `UsbTunnel.AudioTaken` | src/connection/usb/android/read.rs:88-152 | reading one transfer moves its audio packet from the wire to the channel of the attached player |
| `UsbTunnel.AudioSent` | src/connection/usb/libusb.rs:421-425 | a transferred audio packet is the next one of the recorder on the wire |
| `UsbTunnel.BothEnds.LinuxJsonRound` | src/connection/usb/libusb.rs:218-233 | against this peer the Linux thread never meets a size past its packet |
| `UsbTunnel.BothEnds.AndroidTake` | src/connection/usb/android/read.rs:88-161 | against this peer the reading thread never meets a transfer it cannot decode, and takes only a closed socket for a closed one |
| `UsbTunnel.BothEnds.Run` | src/connection/usb/libusb.rs:189-260 | the three threads in any interleaving, with partial writes and failures anywhere: each local socket has been written a prefix of what the peer of the other one sends, and the player has been given the packets of the recorder from the one at which it was attached, each once and in order; every state comes from the one before by what happens there |
| `UsbTunnel.BothEnds.Happen` | src/connection/usb/libusb.rs:189-260 | one happening changes both ends exactly as the round of its thread does: what is written, read and put on the wire, with the causes for which a thread ends |
| `UsbTunnel.BothEnds.Drained` | src/connection/usb/libusb.rs:449-486 | while both ends run and nothing is on the wire or held back, the far sockets have been written everything that the near ones have sent, and the player has every packet since it was attached |
| `UsbTunnel.BothEnds.MessagesThrough` | src/utils.rs:206-347 | messages framed by the peer of one socket are decoded from the other one as a prefix, without an error |
| `Messages.Router.Forward` | src/message_router.rs:84-125 | the oldest message goes to the end of the queue of its component |
| `Messages.Router.Run` | src/message_router.rs:84-125 | for each component, what it has received and what is still in the router are always the same sequence |
| `ConnectionManager.ResourceManager.RequestDisconnectResourcesFor` | src/connection.rs:134-150 | only what the connection owns is released, each with its stop event |
| `ConnectionManager.ResourceManager.CheckNextResourceRequest` | src/connection.rs:213-371 | the arms, in the order of the source, take the resource and start the audio exactly as the value-level check does, whose meaning over runs is given by `AudioOrigin` |
| `ConnectionManager.HeldSilently` | src/connection.rs:302-322 | a resource is taken without audio if and only if a UDP request finds it free and there is no socket; after any start no later check of the request starts again |
| `ConnectionManager.StreamLost` | src/connection.rs:261-297 | a TCP stream is used up without audio if and only if the resource is taken |
| `ConnectionManager.ConnectionManager.FindByIp` | src/connection.rs:502-513 | the iteration ends with a connection of that address that is not over USB, if there is one |
| `ConnectionManager.ConnectionManager.HandleCmEvent` | src/connection.rs:474-616 | the whole new state, every message sent and every event for the USB manager, for every event and every answer of the outside |
| `ConnectionManager.HandleKeepsOwned` | src/connection.rs:474-616 | entries bear their own id, ids are below the next one, owners are registered: kept by every event |
| `ConnectionManager.RemovalReleases` | src/connection.rs:592-596 | after its removal a connection owns nothing, and what others own is untouched |
| `ConnectionManager.PassedOn` | src/connection.rs:474-616 | exactly which other messages each event causes: a connected stream comes back with its address, the device manager hears of each new connection, the UI of a failed listener, the USB manager of a descriptor, of quitting, and of playing over USB exactly when that is started |
| `ConnectionManager.StreamFindsItsConnection` | src/connection.rs:502-513 | a data stream goes to a given connection, whatever the order of the iteration, if and only if that one alone, not over USB, has the address |
| `ConnectionManager.OpenedStream` | src/connection.rs:548-575 | if nothing else is handled before it arrives, the stream that a request opens goes to the connection of the request if and only if that is alone at its address |
| `ConnectionManager.StreamGoesAstray` | src/connection.rs:502-534 | two devices behind one address: the stream opened for the first one is attached to the second one |
| `AudioOrigin.EveryStart` | src/connection.rs:213-371 | in every run each start ever sent was sent by the connection manager for a registered connection; its resource, rate and audio info are those of the request handled last for that connection, and it carries what the request names: a TCP stream that arrived for this connection before, the address it came from, or USB |
| `AudioOrigin.StreamsAreUsedOnce` | src/connection.rs:261-297 | in every run the starts over a TCP stream and the connections that keep it are together no more than its arrivals |
| `AudioOrigin.NoStreamTwice` | src/connection.rs:261-297 | no stream is started twice: two starts over one stream mean that it has arrived twice |
| `AudioOrigin.StartsExactly` | src/connection.rs:213-371 | in every run, when the connection manager looks at the request of a connection, audio starts if and only if there is a request, its resource is free and its data connection is there |
| `AudioOrigin.ManagerStartsExactly` | src/connection.rs:213-371 | for every state and event: the new owners and what is left of the stream then, whether audio starts or not |
| `AudioOrigin.ManagerLooksOrWaits` | src/connection.rs:474-616 | without such a look nothing is started, and only a removal releases a resource |
| `Devices.PanicsExactly` | src/device/state.rs:241-388 | a task panics if and only if the rate is neither 0, 44100 nor 48000, or, on Android, a stream that is stereo, at 44100 or 48000, and in PCM or Opus arrives before the audio info; any other stream is refused without an effect; its requests name its own id |
| `Devices.Handshake` | src/device/state.rs:241-388 | two devices agree on a stream: the rate that the receiver answers is the one recorded, what is announced is what is sent, over USB, UDP or TCP as connected and configured, and the receiver asks to play it at the announced rate over the same kind of connection; a rate of 0 sends nothing, an unusual one panics |
| `Devices.AnswersExactly` | src/device/state.rs:216-393 | over a whole life of a task every ping is answered once, every start of the audio is passed on once in either direction, and every question for the rate is answered once or waits for the audio info |
| `Devices.DeviceStateTask.HandleClientMessage` | src/device/state.rs:241-393 | new state, messages to the router and to the peer for every message |
| `Devices.DeviceStateTask.HandleDeviceEvent` | src/device/state.rs:216-238 | everything that waited for the audio info is answered once and in order |
| `Devices.DeviceStateTask.Run` | src/device/state.rs:156-213 | device and messages are those of the reactions to the inputs handled, one after the other; the last of these ends the task exactly when it is a quit request, a broken connection, an order to disconnect or a message that panics, and the removal is requested once, as the last message, exactly when the task ends by itself |
| `Devices.DeviceManager.HandleDmEvent` | src/device.rs:139-188 | new map, messages and started or quitting task; the removal of an unknown connection is the only panic |
| `Devices.RemovalIsPassedOn` | src/device.rs:174-187 | a removal, and nothing else, is passed on to the connection manager, and the UI hears of it exactly when the last connection is removed |
| `TaskLife.MailboxIsTold` | src/device.rs:139-188 | in every run the mailbox of a task holds what its device manager was asked to tell it, minus what it has taken: orders to disconnect, pings, audio info and start of audio, in order, none lost or made up |
| `TaskLife.LeftExactly` | src/device/state.rs:172-213 | in every run a connection is on its way out or gone if and only if it has broken or its task has taken an order to disconnect |
| `TaskLife.StaysLive` | src/device.rs:139-188 | as long as its connection does not break and it is not connected when all devices are to be disconnected, an id never leaves its live phase that way: pings and everything else leave it connected |
| `TaskLife.DisconnectReachesAll` | src/device.rs:170-174 | once all devices are to be disconnected, each task connected then has the order in its mailbox for as long as it runs |
| `TaskLife.OrderIsObeyed` | src/device/state.rs:196-213 | a task that reaches the order, or whose connection breaks, stops and asks once for its removal, and sends nothing else |
| `TaskLife.PingsExactly` | src/device/state.rs:217-223 | in every run a ping goes to a peer exactly when its task takes the order to ping and no ping is open, and then it is the only message; pings of the peer are answered, and nothing else is |
| `TaskLife.PingsAreAnswered` | src/device/state.rs:319-325 | in every run there is an answer from the peer between any two pings sent to it |
| `OboeLogic.StopBetween` | src/audio/oboe.rs:389-392 | in an exclusive history there is a stop between any two starts |
| `OboeLogic.OboeLogic.HandleAudioEvent` | src/audio/oboe.rs:374-476 | mode, messages and panics for every command; the flags of the two threads are set exactly while the mode is active |
| `OboeLogic.OboeLogic.HandleEvent` | src/audio/oboe.rs:290-366 | the same for timer, buffering and error events |
| `OboeLogic.OboeLogic.Run` | src/audio/oboe.rs:290-372 | for all events: no second thread is ever started, only Opus or missing audio info panics, and exclusive commands are never ignored; all events up to the request to quit are handled, each as the machine says |
| `OboeLogic.ActiveExactly` | src/audio/oboe.rs:290-372 | the output is active if and only if some stream was started, with a data connection that allowed it, and there was no stop, failed thread or callback error since; its mode is that of the first such stream |
| `OboeLogic.AskedExactly` | src/audio/oboe.rs:290-366 | the sender is asked for its audio exactly when a UDP stream is started, and for any other one when the timer first finds that its second has passed |
| `OboeLogic.AskedOncePerStart` | src/audio/oboe.rs:290-366 | and never more often than streams were started |
| `Lifecycle.StepPending` | src/message_router.rs:84-125 | a step of any component takes at most the head of one queue and appends to the others, as seen through the router |
| `Lifecycle.MovedBalanced` | src/device.rs:147-187 | the six moves of an id keep every registered id in exactly one place |
| `Lifecycle.PhaseAdvances` | src/device.rs:147-187 | a move leaves an id in its phase or takes it to the next one, or strands a live one whose task panics |
| `LifecycleSafety.StepIsMove` | src/device.rs:139-188 | every step of every component, the panic of a task included, is one of the six moves of one id, or none: the queues refine the simple machine |
| `LifecycleSafety.StepRegistered` | src/connection.rs:598-615 | a request under way always names a registered connection and has no removal of it ahead |
| `LifecycleSafety.StepFollows` | src/connection.rs:213-371 | each step keeps the audio history exclusive and its player the owner of the play resource |
| `LifecycleSafety.RunSafe` | src/device.rs:147-187 | all invariants in every state of every run, also after tasks have panicked |
| `LifecycleSafety.NothingFails` | src/device.rs:174-187 | in every run a removal finds its connection and a waiting task, no task handle is replaced, a stream that starts meets no other one, and on Android it has its audio info; only a task that has panicked or a stream in Opus ends a run |
| `LifecycleSafety.FaultsExactly` | src/device.rs:139-188 | in every run the device manager panics exactly when it sends to a task that has panicked, which the next ping of all devices does, and the output exactly on a stream in Opus |
| `LifecycleSafety.AudioInfoIsKnown` | src/audio/oboe.rs:386 | in every run on Android each stream that is started comes with the audio info that the output unwraps |
| `LifecycleSafety.HeldUntilRemoved` | src/connection.rs:302-322 | in every run an owner of the play resource that does not play keeps it, still without playing, for as long as it is registered |
| `StreamDelivery.StreamDelivered` | src/connection.rs:502-534 | in every run, whatever is handled in between, the stream that a request opened goes to the connection of the request if and only if, when it arrives, that is still registered, not over USB, and the only such connection at its address |
| `StreamDelivery.StreamUnderWay` | src/connection.rs:548-575 | in every run the announcement of that stream is under way until the connection manager handles it |
| `StreamDelivery.AddressKept` | src/connection.rs:484-501 | in every run a connection keeps its address and kind for as long as it is registered |
| `LifecycleRuns.HoldsSilently` | src/connection.rs:302-322 | a run in which a device asks to play over UDP, has no socket, and holds the play resource without playing |
| `LifecycleRuns.StreamOvertaken` | src/connection.rs:502-575 | a run in which a device is alone at its address when its request opens a stream, and another one that is there at its arrival gets it |
| `LifecycleRuns.PingsTheDead` | src/device/state.rs:241-290 | for every unusual sample rate, a run in which the peer ends its task with it and the next ping ends the device manager |
| `LifecycleSafety.RequestsFindTheirConnection` | src/connection.rs:549-615 | in every run the requests and removals that reach the connection manager name a registered connection |
| `LifecycleSafety.IdsLiveOnce` | src/connection.rs:484-501 | in every state an id is in exactly one of seven phases, which say where it is registered |
| `LifecycleSafety.StepAdvances` | src/device.rs:147-187 | one step moves an id by at most one phase, and strands only a live one |
| `LifecycleSafety.PhasesGoForward` | src/connection.rs:484-501 | over a whole run the phases of an id only go forward; an id is never given out again |
| `LifecycleSafety.PlayingIsExclusive` | src/audio/oboe.rs:389-392 | between any two play commands ever sent there is a stop, whatever the interleaving |
| `LifecycleSafety.RecordingIsExclusive` | src/connection.rs:213-371 | between any two record commands ever sent there is a stop of a recording |
| `LifecycleSafety.OwnersAreRegistered` | src/connection.rs:114-150 | in every state the owners are registered, who plays owns the play resource, and the send resource has an owner while a recording runs |

## Left out

- PcmCapture.PAStreamManager.HandleData: encoding with Opus is not modelled.
- PcmCapture.PAStreamManager.HandleRecordingStreamRead: the calls into PulseAudio are a list of results, and disconnecting is counted; stream states are not modelled.
- TcpData.TcpDataConnection.RecvPacket: what an unfinished read leaves in the buffer is not stated, as the standard library does not.
- UsbTunnel.BothEnds.Run: transfers are whole or fail; what a retried one does to the reader is `UsbProtocol.RetryIsRefused`.
- AudioPackets.AudioPacketManager.CheckPacket: the subtraction wraps as in a build without overflow checks; `Underflows` says on which inputs a checking build panics instead.
- DataReader.DataReaderThread.DataReadingLogic: the loss counter and the number of receives are unbounded, the capacity of the channel appears only as the answer to each attempt, and the wait for the quit flag at the end, which changes nothing, is not a loop. The buffering counter wraps as in a build without overflow checks.
- CallbackMode.WriteData: the counters for debugging output and the lifetime of the global callback state are not modelled.
- PcmPipeline.OverTcp: the two conditions on partial sends and receives are the ones that `TornStream.FullSocket` and `TornStream.FirstLook` show to be needed.
- PcmPipeline.OverUdp: the reading thread appears through the blocks that it queues, which `DataReader.DataReaderThread.DataReadingLogic` gives.
- JsonStream.Connection.ConnectionTask: JSON text is any pair of functions; the capacity of the channels appears only as a quit that wins against a send.
- JsonTunnel.TunnelTransparent: transfers arrive whole and in order; reordering is not something USB does.
- UsbLinux.LibUsbLogic.Update: finding a device and the accessory handshake are a parameter.
- ConnectionManager.ConnectionManager.HandleCmEvent: connection resources are values in the map, as they are owned by it; starting and stopping the listener, UDP address lookup and logging are left out. The ends of the USB audio channel are named, not connected.
- Devices.DeviceStateTask.Run: ping timing and logging are left out.
- LifecycleSafety.RunSafe: queues are unbounded and handlers run to their end, so deadlocks on the bounded channels are not covered; the shutdown of the application, which breaks the protocol on purpose, is left out; a run ends with the first panic of the device manager or of the audio output; the audio component is the Android one, and the manager that hands it the commands in order is part of its queue.
- Liveness of any kind, and the order of stores to the quit flags of the threads.
- The normal mode of the audio output, which is unreachable, and src/device/data.rs, which is not compiled.
- USB device discovery, socket binding and accepting, the UI protocol, configuration parsing and thread priorities.
- PulseAudio's own event loop and the other users of the audio events on Linux.
