# Amiga Simple SPI drivers: models and proofs

Two Amiga device drivers share one bit-banged SPI bus: `sspinet.device` drives an ENC28J60
Ethernet controller, `sspisd.device` an SD card. This project models both drivers, the SPI
library under them and the two pieces of hardware, and proves what the drivers promise for every
input, every interleaving and every run. The driver state (bank shadow, next-packet shadow,
bus flag, card information, lists, signals) is kept in classes whose methods follow the code;
the hardware is a state machine that acts between any two bytes on the bus.

| file | contents |
|---|---|
| `Words` | bytes, bits, 16-bit words |
| `EncChip`, `EncRing` | the ENC28J60 as its data sheet DS39662 describes it: registers, 8 KB memory, receive ring, transmitter; what the receive hardware can and cannot do to the ring |
| `EncWire`, `EncHost`, `EncDriver`, `EncTheorems` | SPI instructions byte by byte with traffic before each byte; effect of host writes; the driver `enc28j60.c`; results about runs |
| `ExecList`, `NetQueue`, `NetClient`, `NetDevice` | request lists and signals, with every step that clients and handler can take; `begin_io` and `abort_io` among the steps of all others; the handler task of `sspi-net/device.c` on top of the chip driver |
| `SdCard`, `SdLink`, `SdDriver`, `SdCsd`, `SdTheorems` | a card as sections 7.2 and 7.3 of the SD Physical Layer Simplified Specification describe it; `sd.c` from single bytes to `sd_open`, `sd_read`, `sd_write`; the CSD; results about runs |
| `SdDevice` | `sspi-sd/device.c`: message port, card state, request processing |
| `SpiLow`, `SpiLib`, `SpiBus` | `spi_low.asm` on registers and port samples; `spi.c` at both speeds; the shared bus, and the calls of both drivers on it |
| `Timer` | the 24-bit counter and `timer_delay` |

How to read the contracts:

- Interference. `Wire.Traffic`, `NetDevice.Device.Clients`, `NetClient.Entry.World` and
  `SdDevice.Device.Clients` perform any number of arbitrary steps of the other side. They are called
  wherever the other side can act, so a contract holds for every interleaving. Ghost results such as
  `at` are the state at the moment a transaction or a list access takes effect.
- Records. Ghost logs say what a run did: the bus calls and commands of the SD driver (`log`,
  `issued`), the bus calls of the network driver (`ops`), the writes posted, taken and sent, the
  reads served, the requests replied. Runs (`Run`, `Task`) are specified by them, step by step.
- Freedom of the chip. Frames, flags, aborted transmissions, stalled transmit logic, the length of
  transmissions and PHY writes and a receiver that disables itself are events that can come at any byte.
- Freedom of the card. Every exchanged byte has a `Choice`: delays, busy times, refusals, error
  tokens, erased contents. A `Prompt` card refuses nothing valid and keeps within the driver's
  limits as long as no transaction is cut off; contracts say what then must succeed, and what is
  true with any card. `mid`, `k` and `w` are what a write's commands left, how many sectors landed
  and how many may have been erased.
- Loops that may not end (`hung`, `running`, `watch`): the method watches so many rounds and says
  whether the loop was still going.

Findings, each with its exact condition:

- `begin_io` accepts up to 1518 data bytes, so a frame of up to 1532; exactly from 1529 bytes on the
  chip's status vector runs past the end of memory into the receive ring
  (`NetDevice.AcceptedFrameFits`, `Enc28j60Theorems.StatusVectorSparesRingIff`; 1515 data bytes in
  `NetDevice.StatusVectorCanOverflow`, and what that does in `LongPacketBreaksQueue`).
- `sd_deselect` runs before the SD driver has the bus and can drop the select of a network transfer
  (`SpiBus.SdCommandDropsNic`); a select survives exactly if the other driver does not do this
  (`SpiBus.SelectSurvivesIff`).
- `timer_delay` never ends exactly if its deadline lies from 2^24 to 2^31 (`Timer.HangsIff`).
- The SDHC capacity is right exactly if C_SIZE is below 2^16, that is below 32 GB
  (`SdCsd.HighCapacityIff`, `LargeCardTruncated`).
- A write can destroy sectors behind its own. CMD25 leaves them alone exactly if the card's erase
  count is at most the number of blocks or the card ends there (`SdTheorems.ContainedIff`). The count
  is larger only if CMD55 was not sent, because the card was busy past the deadline, and no other
  command has been sent since an earlier write announced more: `sd_write` goes on to CMD25 whatever
  became of ACMD23. `SdTheorems.StaleCountErases` is such a run: a write of three blocks at sector 0
  that fails, and one of two blocks there that returns 0 and loses the third.
- The SD device turns an `io_Length` below 512 into a sector count of 0, which the transfer loops
  take for 2^32: the transfer stays within `io_Length` exactly from 512 on (`SdDevice.WithinLengthIff`).
- CMD12 or the stop token is sent only after the last block. With a prompt card a multiple-block
  transfer of `n` blocks from address `a` is broken off, by deselecting the card in the middle of it,
  exactly if `a + 512 <= size < a + 512 n` (`SdDriver.CutOff` in the contracts of `SdDriver.Sd.Read` and
  `SdDriver.Sd.Write`): it begins on the card and runs off its end, as two sectors from the last one on do.
- `abort_io` of the network device replies also to a request it did not find; the accounts are right
  afterwards exactly if it was in the read list when that was searched, or in the write list when
  that was (`NetClient.Entry.AbortIo`).

Where comments and code differ the model follows the code: `nic_init` sets full duplex where its
comments say half duplex; `nic_send` returns only when the packet has been sent, where its comment says
as soon as transmission starts; `spi_write_slow` has no pause; `delay_ms` waits 20 ms whatever its
argument; CSD_STRUCTURE is masked with 2.

## Model

| member | source | states |
|---|---|---|
| Enc28j60Ring.UsedPlusFree | sspi-net/enc28j60.c:503-509 | once a packet has been freed, the bytes in use and the free space the chip computes always add up to 0x19fe |
| Enc28j60Ring.UnreadIsStable | sspi-net/enc28j60.c:339-349 | no ring byte from the next-packet address to the write pointer is in the zone the receive hardware may write |
| Enc28j60Ring.EventHolds | sspi-net/enc28j60.c:461-509 | any hardware event, a frame that wraps included, leaves the unread packets intact and appends what is accepted |
| Enc28j60Ring.EventDrifts | sspi-net/enc28j60.c:461-605 | everything the hardware does on its own keeps host-set registers, stable memory and every queue; a transmission goes on record only when it ends, with the packet that was in memory |
| Enc28j60Ring.ReceiveHolds | sspi-net/enc28j60.c:461-509 | storing an accepted frame extends the queue by exactly that frame |
| Enc28j60Ring.LayoutAppend | sspi-net/enc28j60.c:478-504 | the chain of packets in the ring grows at its end only |
| Enc28j60Wire.Wire.Traffic | sspi-net/enc28j60.c:277-298 | what the chip does on its own before any byte of a transfer: frames arrive, but the bank and all the host set stay |
| Enc28j60Wire.Wire.Put | sspi-net/enc28j60.c:277-284 | a byte to the chip, after arbitrary traffic, acts as the SPI instruction set says |
| Enc28j60Wire.Wire.Get | sspi-net/enc28j60.c:291-298 | a byte from the chip, after arbitrary traffic |
| Enc28j60Driver.FlatIsNamed | sspi-net/enc28j60.c:73-80 | with the right bank selected an address constant reaches the register it names; the five shared registers do in any bank |
| Enc28j60Driver.Nic.SetBank | sspi-net/enc28j60.c:73-103 | afterwards the chip's bank bits equal the bank shadow, and the bank of the address unless the register is shared; nothing is sent if that was so before |
| Enc28j60Driver.Nic.WriteRegister | sspi-net/enc28j60.c:159-175 | exactly the named register is written, at one instant, with arbitrary drift before and after |
| Enc28j60Driver.Nic.SetBitsOf | sspi-net/enc28j60.c:109-128 | -1 and no effect on a MAC or MII register; otherwise the bits are set in exactly the named register |
| Enc28j60Driver.Nic.ClearBitsOf | sspi-net/enc28j60.c:134-153 | the same for clearing bits |
| Enc28j60Driver.Nic.ReadRegister | sspi-net/enc28j60.c:180-198 | the value of the named register, the dummy byte of MAC and MII registers skipped |
| Enc28j60Driver.Nic.WriteRegister16 | sspi-net/enc28j60.c:200-207 | low then high byte, each reaching its register, with drift between |
| Enc28j60Driver.Nic.ReadBuf | sspi-net/enc28j60.c:291-298 | the bytes of the buffer read pointer's walk, around the ring, as they were before the call wherever stable |
| Enc28j60Driver.Nic.WriteBuf | sspi-net/enc28j60.c:277-284 | the bytes land one after the other at the write pointer and no queue is disturbed |
| Enc28j60Theorems.WriteReaches | sspi-net/enc28j60.c:159-175 | what the value written becomes in every register: buffered, read-only, thirteen-bit and self-clearing ones included |
| Enc28j60Theorems.WriteSpares | sspi-net/enc28j60.c:159-175 | every other register keeps its value, but for four documented couplings |
| Enc28j60Theorems.WriteThenRead | sspi-net/enc28j60.c:159-198 | a register written by the driver and read by it, whatever banks and traffic lie between, reads back what its implemented bits hold; any other register read instead is as it was, but for those couplings |
| Enc28j60Driver.SwapIsWord | sspi-net/enc28j60.c:485-487 | SWAP16 of a big-endian read is the little-endian word of the chip |
| Enc28j60Driver.Nic.Poll | sspi-net/enc28j60.c:443-455 | the number of packets waiting at some instant of the call |
| Enc28j60Driver.Nic.Recv | sspi-net/enc28j60.c:461-529 | delivers the oldest frame not yet taken, without CRC and cut to the buffer, or skips it if its status is bad; -1 without taking one only if none was waiting at the start; unread frames survive |
| Enc28j60Driver.OkBit | sspi-net/enc28j60.c:487-489 | the bit that nic_recv tests is "Received Ok", bit 23 of the chip's 32-bit status vector |
| Enc28j60Driver.Nic.ReadHeader | sspi-net/enc28j60.c:478-487 | the header read is that of the head packet |
| Enc28j60Driver.Nic.FreePacket | sspi-net/enc28j60.c:503-509 | before the second byte of ERXRDPT no unread packet is released and the old pointer stands; afterwards the head packet is released and counted off, and put on record as delivered |
| Enc28j60Host.PacketFreed | sspi-net/enc28j60.c:503-506 | between the two byte writes of ERXRDPT, under any traffic, the whole queue stays protected; the second write releases exactly its head |
| Enc28j60Theorems.FixedPointerIsOdd | sspi-net/enc28j60.c:339-349 | for every packet address the fixed-up pointer is its ring predecessor, odd and in the ring |
| Enc28j60Theorems.ProgrammedPointerIsOdd | sspi-net/enc28j60.c:339-349 | in a sound driver that has taken a packet, between any two calls, the programmed pointer is odd, in the ring and just before the next packet |
| Enc28j60Driver.Nic.Send | sspi-net/enc28j60.c:539-619 | exactly one transmission has been finished, that of the caller's bytes, and the result is the byte count of its status vector less the CRC; up to 1528 bytes, receive queue, shadows, pending and delivered frames are unchanged |
| Enc28j60Driver.Nic.LoadPacket | sspi-net/enc28j60.c:565-576 | control byte and packet lie at 0x1a00 as given, receive queues untouched |
| Enc28j60Driver.Nic.ResetTransmitter | sspi-net/enc28j60.c:577-578 | transmit logic that an earlier failure has stalled is free again, and nothing else has changed |
| Enc28j60Driver.Nic.AwaitTransmission | sspi-net/enc28j60.c:589-602 | unless the transmit logic is stalled the loop ends, and then the transmission has ended |
| Enc28j60Driver.Nic.Transmit | sspi-net/enc28j60.c:576-603 | the transmission of the packet in memory, and no other, has been finished, with its status vector behind the packet, and the transmitter is idle again with TXRTS clear |
| Enc28j60Driver.Nic.ReadStatusVector | sspi-net/enc28j60.c:608-613 | the length comes from the status vector behind the packet |
| Enc28j60Theorems.StatusVectorSparesRingIff | sspi-net/enc28j60.c:571-609 | the status vector stays clear of the receive ring if and only if the packet has at most 1528 bytes |
| Enc28j60Theorems.LongPacketBreaksQueue | sspi-net/enc28j60.c:571-605 | beyond that, the register writes with which nic_send starts the packet lead to a status vector that destroys a queue starting the ring, unless its byte happens to be the same |
| Enc28j60Driver.Nic.Init | sspi-net/enc28j60.c:352-440 | from any chip state and any shadows: an empty receive ring, coherent shadows, reception on, interrupt flags cleared, and the MAC, PHY and interrupt registers exactly as programmed |
| Enc28j60Driver.Nic.AwaitPhy | sspi-net/enc28j60.c:231-233 | the loop ends, and then no PHY write is under way |
| Enc28j60Driver.Nic.WritePhy | sspi-net/enc28j60.c:227-239 | the PHY register named has the value, whatever write was under way before, and nothing else is disturbed |
| Enc28j60Driver.Nic.KeepAlive | sspi-net/enc28j60.c:626-645 | exactly if the receiver had switched itself off when ECON1 was read it is set up from scratch; otherwise nothing taken, delivered or waiting changes |
| Enc28j60Theorems.DeliveriesConcat | sspi-net/enc28j60.c:461-529 | deliveries of two stretches of arrivals are the one after the other |
| Enc28j60Theorems.PayloadIsBody | sspi-net/enc28j60.c:486-495 | what is delivered of a frame is its body without the four CRC bytes, cut to the buffer |
| Enc28j60Theorems.GoodFrameDelivered | sspi-net/enc28j60.c:489-500 | a good frame is delivered whatever bad frames surround it |
| Enc28j60Theorems.Run | sspi-net/enc28j60.c:352-645 | any sequence of driver calls under any traffic: each reply is that of its step, which takes the oldest frame waiting and returns its payload, has the packet given sent and returns its byte count, counts, or sets up afresh |
| Enc28j60Theorems.ReceivedIsAccepted | sspi-net/enc28j60.c:461-529 | between two set-ups of a run the receives return exactly the good frames among those the chip accepted, in order, each once and cut to its buffer |
| Enc28j60Theorems.SentIsGiven | sspi-net/enc28j60.c:539-619 | between two set-ups of a run the transmissions that the chip finished are those of the packets given to nic_send, each once and in order |
| Enc28j60Theorems.WaitingIsTaken | sspi-net/enc28j60.c:461-529 | after as many receives as frames were waiting, every one of those has been taken; a receive misses only if none is left of them |
| Enc28j60Theorems.BusCalls | sspi-net/enc28j60.c:352-645 | between any two calls the log of bus operations is a sequence of whole calls: obtain, selects each with its deselect, release |
| NetQueue.RemoveFirstMatch | sspi-net/device.c:227-234 | taking the first request of a type takes the head of that type's queue and leaves all other types' queues alone |
| NetQueue.QueueReadKeeps | sspi-net/device.c:497-502 | queueing a read keeps all requests accounted for and all orders |
| NetQueue.QueueWriteKeeps | sspi-net/device.c:523-528 | a write queued is last in order and on record, and will be noticed because its client has yet to signal |
| NetQueue.ClearKeeps | sspi-net/device.c:501-527 | clearing QUICK after the list was released disturbs nothing, wherever the request is by then |
| NetQueue.TakeHeadKeeps | sspi-net/device.c:167-170 | taking the head of the write list keeps all invariants: it is in exactly one place, came before all still queued, and none is lost |
| NetQueue.ServeKeeps | sspi-net/device.c:226-235 | handing the latest frame to the first request of its type keeps per-type order and the order of frames |
| NetQueue.AbortTakeKeeps | sspi-net/device.c:588-600 | aborting a queued request keeps all invariants |
| NetQueue.AnswerKeeps | sspi-net/device.c:272-274 | replying once settles the account of a request taken off a list |
| NetQueue.ReactKeeps | sspi-net/device.c:471-608 | whatever clients and interrupt do next, requests stay accounted for, ordered and noticed, and what the handler relies on stays |
| NetQueue.HandleKeeps | sspi-net/device.c:160-282 | so do they whatever the handler does next |
| NetDevice.AssembledLength | sspi-net/device.c:92-193 | every accepted request makes a frame that fits the frame buffer |
| NetDevice.AcceptedFrameFits | sspi-net/device.c:511-515 | its data ends by 0x1ffc, and the status vector fits if and only if the frame has at most 1528 bytes |
| NetDevice.StatusVectorCanOverflow | sspi-net/device.c:511-515 | 1515 data bytes behind a header are accepted and end one byte too far |
| NetDevice.AssembledBytes | sspi-net/device.c:177-189 | destination, source, type high byte first, and data stand at bytes 0, 6, 12 and 14 of a frame sent |
| NetDevice.CompletedBytes | sspi-net/device.c:238-270 | and are looked for there in a frame received; the broadcast flag says that bytes 0 to 5 are 0xff |
| NetDevice.SentIsReceived | sspi-net/device.c:177-270 | a reader gets the type, addresses and data that the writer of the frame put in |
| NetClient.OtherBeside | sspi-net/device.c:146-608 | no step of the handler or of another client resubmits, queues or, unless it is in the device, answers or changes a client's request |
| NetClient.Entry.BeginRead | sspi-net/device.c:489-503 | a read without buffer functions is refused at once; any other is queued last in the list of that moment, and its flag cleared when others, even its reply, may have come between |
| NetClient.Entry.BeginWrite | sspi-net/device.c:505-532 | a write or broadcast is queued last with its data and destination, and its handler signalled after that, exactly if it is short enough and has buffer functions; otherwise it is refused with the right error |
| NetClient.Entry.BeginIo | sspi-net/device.c:471-576 | a read joins the read list and a write the write list, last, with the contents submitted, a broadcast to ff:ff:ff:ff:ff:ff, and the handler is signalled; what is refused and other commands are finished with their result and change no list; submitted once, each is answered once or still in the device |
| NetClient.Entry.AbortIo | sspi-net/device.c:578-608 | with others running between its sections: the accounts are right afterwards if and only if it was found in the read list or, later, in the write list |
| NetDevice.Device.RemHead | sspi-net/device.c:167-170 | the head of the write list passes into the handler's hands as it was posted; when there is none, every write queued so far is settled |
| NetDevice.Device.Assemble | sspi-net/device.c:177-189 | the frame is the caller's data, verbatim or behind destination, source and type |
| NetDevice.Device.SendAndReply | sspi-net/device.c:172-200 | a write taken goes onto the wire as begin_io let it through, although others run meanwhile, and is replied once |
| NetDevice.Device.SendNext | sspi-net/device.c:165-201 | one round: the write at the head of the list goes byte for byte onto the wire and is replied once, or every write queued is settled |
| NetDevice.Device.Drain | sspi-net/device.c:162-202 | the send loop ends with every write queued so far sent or aborted and later ones noticed; as long as it runs each round sends one |
| NetDevice.Device.NicRecv | sspi-net/device.c:219-223 | each frame received is recorded, and is the next one the chip driver delivered; one that was waiting is taken |
| NetDevice.Device.FindFirst | sspi-net/device.c:227-234 | the loop finds the first request of the frame's type |
| NetDevice.Device.Match | sspi-net/device.c:226-235 | the head of the queue of the frame's type leaves the list, and the queues of all other types are as before; without one nothing changes |
| NetDevice.Device.IsBroadcast | sspi-net/device.c:262-270 | the flag says that all six destination bytes are 0xff |
| NetDevice.Device.Deliver | sspi-net/device.c:238-275 | the request is filled in from the frame, with or without header, and replied once |
| NetDevice.Device.Dispatch | sspi-net/device.c:226-280 | the longest-waiting request of the frame's type, and only it, is completed with this frame |
| NetDevice.Device.ReceiveNext | sspi-net/device.c:217-282 | one round: the next frame goes to the head of its type's queue at the moment of the search, or to nobody |
| NetDevice.Device.Receive | sspi-net/device.c:216-283 | the loop takes a frame that was waiting, hands out one each round it goes on, and loses no record |
| NetDevice.Device.Wait | sspi-net/device.c:160-160 | without a transmit signal every write signalled before is settled, and the write list is empty or a client has yet to signal |
| NetDevice.Device.KeepAlive | sspi-net/device.c:204-211 | nic_init has run once more exactly if reception was off when ECON1 was read, and reception is on; frames received and sent stay those of the chip across a new set-up |
| NetDevice.Device.Listen | sspi-net/device.c:204-283 | in every 64th receive turn, and in no other, the chip is set up again exactly if its receiver was found disabled; a frame that was waiting is taken |
| NetDevice.Device.Turn | sspi-net/device.c:150-284 | after a turn every write signalled before it has been sent or aborted and a frame that was waiting has been taken; asleep, no write is queued whose client has signalled |
| NetDevice.Device.Task | sspi-net/device.c:146-285 | any run: what was sent are the writes taken, in the order queued and as let through, and none signalled before is left; the chip has finished exactly their transmissions; reads get frames of their type in per-type order, frames come from the chip in its order, each request is answered once or still in the device |
| SdCard.EffectKeeps | sspi-sd/sd.c:273-325 | no command, taken or refused, changes what the card is; only CMD25 may touch its contents |
| SdLink.Link.SelectCard | sspi-sd/sd.c:207-211 | the driver selects the card only while it has the bus |
| SdLink.Link.Release | sspi-sd/sd.c:194-202 | it gives the bus back only with the card deselected |
| SdLink.Link.WaitReady | sspi-sd/sd.c:179-190 | 0 exactly says the card is no longer busy; a prompt card is waited for |
| SdLink.Link.Deselect | sspi-sd/sd.c:192-203 | the transaction ends, and the bus is given up with the card off the data line |
| SdLink.Link.Select | sspi-sd/sd.c:205-221 | on success the card is listening; on a timeout it is deselected again |
| SdLink.FrameFields | sspi-sd/sd.c:296-308 | the six bytes carry command, argument and the CRC the card checks |
| SdLink.Link.SendFrame | sspi-sd/sd.c:309-309 | the card carries out exactly the command sent |
| SdLink.Link.PollResponse | sspi-sd/sd.c:317-324 | the R1 response if it comes within ten bytes, else 0xff |
| SdLink.Link.SendCmd | sspi-sd/sd.c:288-325 | the command was carried out or refused and the answer is its R1, or it was not sent, whatever state the card was left in; the bus calls are those of one command |
| SdLink.Link.SendAppCmd | sspi-sd/sd.c:279-286 | an application command follows only an accepted CMD55 |
| SdLink.Link.StopTransmission | sspi-sd/sd.c:311-324 | CMD12 amid a running stream ends it; a prompt card's answer is 0, the stuff byte skipped |
| SdLink.Link.PollToken | sspi-sd/sd.c:229-232 | the first byte that is not 0xff, unless the deadline came first |
| SdLink.Link.ReadBlock | sspi-sd/sd.c:223-243 | 0 means the block's bytes are in the buffer and nothing else changed; otherwise the buffer is untouched |
| SdLink.Link.WriteBlock | sspi-sd/sd.c:245-271 | a block is programmed if and only if the result is 0 |
| SdLink.Link.StopTran | sspi-sd/sd.c:255-270 | STOP_TRAN ends a multiple-block write exactly if the result is 0, without touching memory |
| SdDriver.Sd.ReadStream | sspi-sd/sd.c:496-503 | the blocks that came, up to the first that did not, are in the buffer |
| SdDriver.Sd.ReadMulti | sspi-sd/sd.c:494-512 | the CMD18 branch: exact prefix, CMD12 only after all blocks |
| SdDriver.Sd.Read | sspi-sd/sd.c:473-517 | one CMD17 or CMD18 for the sector's address; in every outcome the first k sectors in the buffer are right and the rest of it is untouched; 0 means all, properly ended; a prompt card gives all it has, and the transfer is cut off if and only if it runs off the card's end |
| SdDriver.Sd.WriteStream | sspi-sd/sd.c:546-553 | the blocks accepted are exactly a prefix |
| SdDriver.Sd.AnnounceCount | sspi-sd/sd.c:540-543 | once CMD55 has been sent the card's erase count is at most that of this write, whatever becomes of ACMD23 |
| SdDriver.Sd.WriteBlocks | sspi-sd/sd.c:544-562 | whatever CMD25 erased first, the blocks accepted land as a prefix on what it left |
| SdDriver.Sd.WriteAnnounced | sspi-sd/sd.c:541-562 | the range that may be erased is that of the blocks written, unless CMD55 was not sent and a larger count is left over; with a prompt card it always is |
| SdDriver.Sd.Write | sspi-sd/sd.c:519-567 | in every outcome the first k sectors hold the buffer and nothing outside the blocks written changed, but for an erase count left over when CMD55 was not sent; 0 means all, properly ended; cut off with a prompt card if and only if it runs off the card's end |
| SdDriver.Sd.Reset | sspi-sd/sd.c:358-367 | CMD0 is sent after the 74 clocks of a power-up, and an answer of 1 means that the card is idle and reset |
| SdDriver.CcsBit | sspi-sd/sd.c:387-393 | bit 30 of the OCR of a ready card tells high capacity |
| SdDriver.ConditionAnswer | sspi-sd/sd.c:368-371 | only a version 2 card answers CMD8, with an echo if the voltage suits it |
| SdDriver.Sd.CheckCondition | sspi-sd/sd.c:368-373 | the driver knows a version 2 card by its answer to CMD8, and by the echo whether the voltage suits it |
| SdDriver.Sd.InitPoll | sspi-sd/sd.c:377-377 | an answer of 0 means the card has left the idle state, a high-capacity card only if the host set HCS |
| SdDriver.Sd.WaitInit | sspi-sd/sd.c:412-420 | the loop ends only with the card ready; its deadline clears the type and does nothing else; a prompt card is never waited for in vain |
| SdDriver.Sd.InitV2 | sspi-sd/sd.c:371-398 | type and addressing agree with the card, which has 512-byte blocks |
| SdDriver.Sd.InitV1 | sspi-sd/sd.c:400-429 | the same for the other branch, through CMD16 |
| SdDriver.Sd.Identify | sspi-sd/sd.c:367-430 | a prompt card is classified as section 7.2.1 prescribes; any card is addressed as it expects or has no type |
| SdDriver.Sd.ReadRegister | sspi-sd/sd.c:436-456 | CMD9 and CMD10 give the card's own register |
| SdDriver.CsdFields | sspi-sd/sd.c:77-123 | in the register of any sixteen bytes each field is made of the bits of those bytes that the standard gives it |
| SdDriver.Sd.Settle | sspi-sd/sd.c:432-466 | CID and then CSD are read at slow speed, and a card with a type is fast from then on; without a type the result is -1 |
| SdDriver.Sd.Open | sspi-sd/sd.c:342-471 | 0 implies one of three SD types, matching the card, equal block lengths and the size that the bytes of its CSD state, and no erase count pending; the exact result for every prompt card; the commands follow one another as in the flow chart of section 7.2.1; a card not ready in time counts as none |
| SdCsd.Fields | sspi-sd/sd.c:77-123 | shifts and masks pick out the standard's fields of the 128-bit register |
| SdCsd.CardInfo.ParseCsd | sspi-sd/sd.c:66-136 | sector count by BLOCKNR or by the low 16 bits of C_SIZE; 0 if and only if the type is supported and the block lengths are equal |
| SdCsd.ShiftFits | sspi-sd/sd.c:99-99 | no standard-capacity register makes the 32-bit sector count wrap |
| SdCsd.StandardCapacity | sspi-sd/device.c:109-110 | for every register the reported size is that of section 5.3.2 |
| SdCsd.HighCapacityIff | sspi-sd/sd.c:100-105 | with READ_BL_LEN 9 the reported size is that of section 5.3.3 if and only if C_SIZE is below 2^16 |
| SdCsd.LargeCardTruncated | sspi-sd/sd.c:101-102 | a register of a card over 32 GB that is taken for one of 512 KB |
| SdTheorems.ByteAddressIff | sspi-sd/sd.c:482-485 | the shifted byte address is right if and only if the card is SDHC or the sector is below 2^23 |
| SdTheorems.AddressesFollowIff | sspi-sd/sd.c:482-485 | the sectors of a transfer follow each other on the card if and only if no byte address wraps among them |
| SdTheorems.WriteReplaces | sspi-sd/sd.c:519-567 | what landed with exactly the blocks written replaces those sectors and nothing else |
| SdTheorems.ReadAfterWrite | sspi-sd/sd.c:473-567 | reading back what was written gives the data |
| SdTheorems.WriteThenRead | sspi-sd/sd.c:473-567 | write, then read: whenever both return 0 the buffers agree, and with a prompt card they do |
| SdTheorems.MultiWriteIsSingles | sspi-sd/sd.c:519-567 | one sd_write of n sectors and n of one sector leave two equal cards equal, with exactly those sectors replaced; with prompt cards all of them succeed |
| SdTheorems.MultiReadIsSingles | sspi-sd/sd.c:473-517 | one sd_read of n sectors and n of one sector fill two equal buffers alike; with prompt cards all of them succeed |
| SdTheorems.ContainedIff | sspi-sd/sd.c:541-546 | CMD25 can change nothing behind n blocks if and only if the erase count is at most n or the card ends there |
| SdTheorems.StaleCountErases | sspi-sd/sd.c:541-546 | a run of two calls whose commands the contract of sd_write allows: the second returns 0 for two blocks and a third is lost |
| SdTheorems.Run | sspi-sd/sd.c:342-567 | any calls with any outcomes, each with the effect of its step on the card as the call before left it; a prompt card that has the sectors always complies; the bus calls are those of whole calls |
| SdTheorems.RunSpares | sspi-sd/sd.c:519-567 | over any stretch of a run a byte that no write was aimed at keeps its value |
| SdTheorems.LastWriteStays | sspi-sd/sd.c:519-567 | a byte that landed stays until another write is aimed at it |
| SdTheorems.ReadsLastWrite | sspi-sd/sd.c:473-567 | whatever sectors a read returns, each byte is the one last written there, through any calls between |
| SdDevice.PutKeeps | sspi-sd/device.c:265-272 | a request put is queued last and signalled at once |
| SdDevice.ReactKeeps | sspi-sd/device.c:211-272 | whatever clients and interrupt do, requests stay accounted for and noticed |
| SdDevice.AddressExact | sspi-sd/device.c:164-171 | for every 32-bit offset the sector address is exact on both kinds of card |
| SdDevice.WithinLengthIff | sspi-sd/device.c:164-171 | the transfer stays within io_Length if and only if that is at least 512 |
| SdDevice.Device.BeginIo | sspi-sd/device.c:211-272 | the four deferred commands are queued last with io_Actual and io_Error 0 and all else as submitted, and the signal is set |
| SdDevice.Device.Reopen | sspi-sd/device.c:131-134 | card_opened is set if and only if sd_open returned 0 |
| SdDevice.Device.HandleChanged | sspi-sd/device.c:121-146 | the card state is renewed and the change counted, nothing queued is lost |
| SdDevice.Device.DeviceGetGeometry | sspi-sd/device.c:101-119 | TDERR_DiskChanged if and only if there is no type; on an opened card sector size and sector count are those of its CSD's bytes, the count of a high-capacity one if and only if C_SIZE is below 2^16 |
| SdDevice.Device.ReadSectors | sspi-sd/device.c:170-175 | io_Actual is set if and only if all sectors arrived, as they do from a prompt card that has them; the rest of the memory, and what lies behind it from 512 bytes on, is untouched |
| SdDevice.Device.WriteSectors | sspi-sd/device.c:162-168 | the same for writing, with what landed on the card |
| SdDevice.Device.ProcessRequest | sspi-sd/device.c:148-180 | each request is answered by command and card state and replied once, on record with the card before and after; a type is known and sized whenever one is carried out |
| SdDevice.Device.CheckChange | sspi-sd/device.c:201-202 | a change noticed between requests is handled before the next one, which is kept, and only once |
| SdDevice.Device.Drain | sspi-sd/device.c:194-207 | the loop ends with every request put so far answered and later ones noticed; as long as it runs each round answers one; a card change signalled before is handled before the second of them |
| SdDevice.Device.Wait | sspi-sd/device.c:189-189 | without the request signal the port is empty; the signals are taken once |
| SdDevice.Device.Turn | sspi-sd/device.c:187-208 | after a turn every request put before it has been answered, and a card change signalled before it was handled first; asleep, no request waits |
| SdDevice.Device.Task | sspi-sd/device.c:182-209 | any run: requests are replied in the order put, each once and with its answer, on the card as the one before left it; after a turn none put before it is left, unless sd_open waits for a card that is not prompt; with a prompt card each is answered as on an opened card exactly if sd_open's conditions are met, from the first on until a transfer runs off the card's end; no more changes are counted than were signalled |
| SpiLow.OnlyDataLineMatters | sspi-lib/spi_low.asm:86-150 | only bit 7 of the port counts |
| SpiLow.RoundTrip | sspi-lib/spi_low.asm:28-160 | decoding the bits written returns the buffer |
| SpiLow.ShiftedByte | sspi-lib/spi_low.asm:86-119 | after eight rounds of move and add the byte is in bits 8-15, or after lsr.w #7 in bits 0-7 |
| SpiLow.StoreWord | sspi-lib/spi_low.asm:122-122 | a word store, allowed at even addresses only |
| SpiLow.ReadWord | sspi-lib/spi_low.asm:85-122 | one pass of the word loop decodes sixteen samples into two bytes in order |
| SpiLow.ReadWords | sspi-lib/spi_low.asm:75-124 | the dbra loop runs once for each word |
| SpiLow.WordPath | sspi-lib/spi_low.asm:75-129 | all whole words at an even address, leaving the size's last bit |
| SpiLow.ReadByte | sspi-lib/spi_low.asm:131-152 | the byte path decodes eight samples into one byte |
| SpiLow.ReadFast | sspi-lib/spi_low.asm:68-160 | for every address parity and size the bytes are the simple byte loop's decoding of the samples, and nothing else is touched |
| SpiLow.WriteFast | sspi-lib/spi_low.asm:28-55 | every byte is driven most significant bit first, none for size 0 |
| SpiLib.Spi.Read | sspi-lib/spi.c:118-124 | the same bytes at either speed, in one transfer or byte by byte with pauses |
| SpiLib.Spi.ReadSlow | sspi-lib/spi.c:108-115 | single-byte reads, each followed by a pause, add up to one fast read |
| SpiLib.Spi.Write | sspi-lib/spi.c:127-133 | the same bits at either speed, in one transfer or byte by byte |
| SpiLib.Spi.WriteSlow | sspi-lib/spi.c:99-105 | single-byte writes add up to one fast write |
| SpiLib.Loopback | sspi-lib/spi.c:99-133 | reading the bits that writing drove returns the buffer |
| SpiBus.Library.ObtainBus | sspi-lib/spi.c:45-52 | takes the semaphore unless the driver has it |
| SpiBus.Library.ReleaseBus | sspi-lib/spi.c:55-62 | gives it back if the driver has it |
| SpiBus.Library.SelectChip | sspi-lib/spi.c:65-71 | asserts this driver's channel |
| SpiBus.Library.DeselectChip | sspi-lib/spi.c:74-80 | deasserts whatever is selected |
| SpiBus.SdCallDisciplined | sspi-sd/sd.c:192-221 | every SD call selects only with the bus, releases only deselected, and ends with the bus free |
| SpiBus.NicCallDisciplined | sspi-net/enc28j60.c:352-645 | so does every network call |
| SpiBus.LoggedIsCalls | sspi-net/enc28j60.c:352-645 | a driver that takes the bus once for each call is, whenever idle, at the end of a whole call |
| SpiBus.PossibleIff | sspi-lib/spi.c:45-80 | an interleaving that the semaphore allows keeps the rules if and only if each driver does on its own |
| SpiBus.SelectIsOwned | sspi-lib/spi.c:45-80 | for every interleaving of any calls of both drivers that the semaphore allows, cut short anywhere: an asserted channel's driver holds the semaphore |
| SpiBus.ReleasedDeselected | sspi-lib/spi.c:55-62 | in all of them the semaphore is given up only with no channel selected |
| SpiBus.SelectSurvivesIff | sspi-sd/sd.c:192-203 | a transaction's select survives if and only if the other driver does not call spi_deselect |
| SpiBus.SdCommandDropsNic | sspi-sd/sd.c:288-291 | an interleaving of one call of each in which starting an SD command drops a network transfer's select |
| Timer.WaitsIff | sspi-common/timer.c:43-45 | the loop goes on if and only if the deadline is 1 to 2^31 ticks ahead modulo 2^32 |
| Timer.ReachedIff | sspi-common/timer.c:40-46 | before the counter wraps the loop goes on exactly until the deadline |
| Timer.HangsIff | sspi-common/timer.c:40-46 | every reading keeps the loop going if and only if the deadline lies from 2^24 to 2^31 |
| Timer.Counter.GetTickCount | sspi-common/timer.c:29-38 | the three register reads give one consistent count wherever a tick falls |
| Timer.Counter.Delay | sspi-common/timer.c:40-46 | polled every tick, it ends on the first reading so many ticks later before the wrap, and never with a deadline from 2^24 to 2^31 |

## Left out

- Library and device set-up and shutdown (`init_device`, `expunge`, `open`, `close`, romtags, vectors) and `spi_initialize`: memory and OS plumbing.
- Reads of PHY registers, which no modelled function makes, and debug dumps of the ENC28J60.
- Real time: the length of `wait_40_us`, debounce and deadlines in milliseconds. Deadlines come after arbitrarily many polls.
- The vertical-blank interrupt is a step of the environment that sets the receive signal.
- Chip faults other than a receiver that disables itself and transmit logic that stalls, and the error returns of register functions, which never fail.
- What an ENC28J60 reads back on an SPI instruction outside its set, and reset of the MAC registers to other than programmed values.
- NetDevice.Device.NicRecv: after a frame of more than 1528 bytes has been sent nothing is assumed of the chip, and frames received are arbitrary.
- NetClient.Entry.AbortIo: two clients aborting the same request at once.
- The network handler sees clients abort only queued requests: after an abort of another one nothing is promised.
- Frames shorter than a header and a CRC, 18 bytes: the chip rejects them; the device would subtract its header size without a check.
- SANA-II query and statistics commands and the trackdisk housekeeping commands: single assignments.
- The tail sentinel that the Exec list loops also visit: lists are sequences of real members.
- SdDriver.Sd.Open: `hung` runs are left at the wait loop; a high-capacity card taken for version 1 after a refused CMD8 does wait forever.
- Write errors that a card reports only after accepting a block (CMD13), block CRCs in SPI mode, and CID text fields.
- A deselected card ends its transaction, but then owes the driver nothing until it is reset; an erase count is forgotten by any command but CMD25. Cards swapped during a run are left out, as this hardware does not report a change.
- SdDevice.Device.ProcessRequest: the request's memory is copied to a buffer for the transfer and back, so clients do not see a transfer in progress.
- SdDevice.Device.ReadSectors: for an `io_Length` below 512 the memory behind the buffer is as long as the transfer, and nothing else lies in it.
- SpiLow: the registers saved on the stack, and the condition codes other than those branched on.
