# Verification of the Meshtastic BLE proxy

The proxy sits between one Meshtastic node, reached over a UART, and up to six phones, connected over
Bluetooth LE. It fetches the node's configuration burst once, keeps it in a packed arena, and replays it
to every phone that asks, one frame per read, with the phone's own nonce in the closing
`config_complete_id`. Live traffic is routed through one bounded queue per phone. This project models that
behaviour and proves that every phone sees what it would see on a link of its own.

## How the model is built

There are two layers, and every class method is proved equal to a function of the first layer.

* **Specification.** `CacheModel`, `Framing`, `TxModel`, `LinkModel`, `BleModel`, `ProxyProtocol` and
  `ProxyModel` give each component as a value and each handler as a function. `ProxyModel.Proxy` is the
  composed state; `Step` is one run-to-completion handler (Bluetooth callback, work item or UART event, as
  `docs/architecture.md` section 5 describes them) and `Run` is any legal sequence of steps. `LinkModel.Link`
  is a phone's ideal one-to-one link: an explicit list of frames still to be replayed, a FIFO and a staged
  packet; it has no cursor, arena or circular buffer.
* **Implementation.** `ConfigCacheStore.ConfigCache` (arena and index), `CircularQueue.PacketQueue`,
  `ConnectionSlot.ProxyConn`, `GattServer.BleGatt` (slot table), `UartReceiver.UartRx`,
  `UartTransmitter.UartTx`, `SessionWithNode.UpstreamSession` and `FirmwareImage.Firmware` (main and router)
  are classes with the fields, arrays and loops of the source. Each carries a ghost `model`, and the
  `ensures` of each method says that the model moves by exactly the specification's function.

`Routing`, `Invariants`, `Independence`, `Registration`, `Parking`, `EndToEnd`, `LiveTraffic`, `Terminators`,
`UpstreamTraffic`, `KeepaliveTimer` and `Advertising` prove the theorems about runs; `PhoneClient` is the phone's side, which knows only the answers
to its own reads. The transmit driver is the one place where handlers are not atomic: `TxModel.TxStep`
splits `tx_work_handler` into the steps between which completion interrupts and producers may land, and
`UartTransmitter.UartTx.WorkHandler` takes a completion at either of the two places where it can meet one.

## Assumptions about the environment

* `on_connected` is called for a connection that is not tracked yet, and a connection object is never null.
* Where the pending list's bound matters, connection objects come from a pool of `CONFIG_BT_MAX_CONN` = 6.
  The theorems that rely on it say so by requiring `Parking.PoolInv` or `Parking.FromPool`.
* Each successful `uart_tx` is followed by one DONE or ABORTED event. `upstream_session_start` is called
  only in BOOT, and may be called again if its transmission was refused.
* The protobuf codec (`Codec.Codec`) is a contract: decoding classifies every byte string, possibly as
  undecodable; only a frame whose variant is `config_complete_id` yields a terminator nonce; encoding
  succeeds with 1..16 bytes (1..512 for the boot request), and what the proxy encodes decodes as such, with
  its nonce.
* Where advertising matters (`Advertising.StackBehaves`), phones connect, or fail to, only while the proxy
  advertises, and only connected phones disconnect. Whether a failed attempt stops advertising is up to the
  controller and left open. Where it matters that the keepalive timer is punctual, the theorem requires
  `KeepaliveTimer.OnTime`.
* A client reads orderly (`PhoneClient.Orderly`) when it reads every packet on to its end, from where it got
  to, with any room for each answer. It may stop at any time.
* Where the node's frames arrive with noise between them, the noise contains no frame start.
* Handlers on the system work queue run to completion. Bytes from the node arrive one at a time, in any
  chunks, with anything else in between.

## Where the code differs from its documentation

* `src/config_cache.h:67-73` and `src/config_cache.c:68-70` promise that an overflowing burst keeps its first frames.
  The code keeps a greedy subsequence. `CacheModel.GreedyNotPrefixExample` is a burst that shows it, and
  `CacheModel.KeepsPrefixIffNothingLaterFits` says exactly when a prefix is kept.
* `docs/architecture.md:252-253` says that a phone that asks before the cache is ready is served automatically.
  `upstream_session_start` clears the pending list (`src/upstream_session.c:312`), so a phone that asked in
  BOOT and does not ask again stays PENDING. `Parking.BootRequestIsForgotten` is the run;
  `Parking.ServedIffAskedSinceStart` is the exact condition.
* `docs/architecture.md:293` says that the terminator of the boot burst is cached; the code does not cache
  it. `Terminators.RunKeepsClassified` proves that it is never cached.
* An empty read does not always mean an empty queue: the read that ends a replay is empty even with packets
  waiting. `LinkModel.EmptyReadWhileAPacketWaits` is such a run and `LinkModel.EmptyReadMeansEmptyQueue` the
  exact condition.
* A requested nonce of 0 on a live proxy reuses the stored nonce (`src/ble_gatt.c:602-605`), although
  `docs/architecture.md:325` promises a verbatim echo: `LinkModel.ZeroRepeatsTheNonce` is such a run, and
  by `Terminators.TerminatorEchoesRequestIff` a phone gets back the nonce it asked with if and only if that is
  not 0, or it has never had another.
* `uart_meshtastic_tx` accepts an empty payload, and the parser on the other side rejects its frame.
  `TxModel.WireParsesBack` is stated with `NonEmpty` for that reason.
* `s_pending` keeps connections that have disconnected. A phone that connects with the same connection
  object is then replayed to, with nonce 0, although it never asked:
  `Parking.ReusedConnectionIsServedUnasked` is the run, and by `Parking.ServedPhoneAskedIffPending` a served
  phone has itself asked since its latest connect if and only if it is PENDING when the terminator arrives.
* `src/main.c:104-105` says that the keepalive fires only after true silence. A write that does not decode is
  forwarded without pushing it out (`src/main.c:63-69`). `KeepaliveTimer.FiresAfterRecentTraffic` is a run in
  which it is due one millisecond after such a write, and by `KeepaliveTimer.FiresAfterTrueSilenceIff` a
  keepalive that is due follows true silence if and only if no such write was queued within the interval.
* By `src/upstream_session.c:71-77` the link should never stay silent beyond the interval. A keepalive refused by
  a full queue is not retried before the next interval is over:
  `KeepaliveTimer.RefusedKeepaliveProlongsSilence` is the run, and `KeepaliveTimer.QuietIsBoundedIff` the exact
  condition.
* `src/ble_gatt.c:402-405` returns from a failed connection attempt without advertising again. If the attempt
  stopped advertising, an empty proxy cannot be found (`Advertising.FailureSilencesAnEmptyProxy`);
  `Advertising.AdvertisesIffRoom` has the exact condition.

## Model

| member | source | states |
|---|---|---|
| EndToEnd.BurstReachesPhone | src/uart_meshtastic.c:136-191 | a burst framed on the wire, with noise before any frame, that fits the cache and is closed by our nonce, fetched while the phones do anything, is what an orderly phone collects from the answers to its reads when it asks at any later time, whatever has happened since: of the node's non-packet, non-terminator frames, in node order, all for an ordinary nonce, all node_infos for 69421, and all but the other nodes' node_infos for 69420; then its own terminator, an empty packet and its live packets |
| EndToEnd.BurstReachesParkedPhone | src/upstream_session.c:343-412 | the same collected bytes, for every nonce, for a phone that asked during the fetch and is connected when the last byte of the terminator arrives |
| EndToEnd.PhoneReadsItsSegment | src/ble_gatt.c:235-303 | after a request on a live proxy an orderly phone collects what its nonce selects (69421: the stored node_infos in order; 69420: the rest and the first node_info, in order; any other: everything but terminators), its terminator and one empty packet, then exactly its live packets in order, whatever everyone else does; it is ACTIVE exactly when it has the empty one |
| EndToEnd.PhoneCollectsItsReplay | src/ble_gatt.c:224-303 | the same from any point of a replay |
| EndToEnd.FetchFillsTheCache | src/upstream_session.c:343-412 | receiving the framed burst and our terminator, with noise before any frame, in any chunks and interleaving, ends LIVE with the cache holding what the storing rule keeps |
| EndToEnd.CacheFollowsTheWire | src/router.c:42-57 | until the burst is closed, parser state, session state and cache are functions of the received bytes alone |
| LiveTraffic.LiveTrafficReachesPhone | src/router.c:42-126 | once LIVE, what an orderly phone collects beyond its replay and what is still queued for it are, in wire order, exactly the payloads framed on the wire whose fate is everyone or this phone, with its own queueStatus replies in between, iff none of these came in while eight were waiting |
| LiveTraffic.ArrivalsFollowTheWire | src/uart_meshtastic.c:136-191 | the node's payloads come in as framed on the wire, each with its one fate |
| LiveTraffic.AllAcceptedIff | src/ble_gatt.c:500-524 | everything offered to a phone gets into its queue, in order, iff each packet was of at most 512 bytes and met fewer than eight waiting |
| LiveTraffic.NeverRefusedIffAlwaysRoom | src/ble_gatt.c:513-517 | over whole runs that is: no packet meant for the phone came in while eight were waiting |
| EndToEnd.BootOpensTheFetch | src/upstream_session.c:287-331 | from power-on, whatever the phones do and the node sends before the start, the session opens with an empty cache and list and the random nonce, or 2 in place of 0 and 1, exactly when its request was queued and the parser is idle; the queued request decodes as one for that nonce |
| Independence.LinksAreIndependent | src/ble_gatt.c:235-303 | over every interleaved run a tracked phone's slot state and every answer to its reads, offsets and sizes included, equal those of one ideal link run on only the events addressed to it |
| Independence.NewPhoneStartsFresh | src/ble_gatt.c:162-180 | that link starts fresh, whatever the previous occupant left in the slot's buffers |
| Independence.OthersBusinessDoesNotMatter | src/ble_gatt.c:235-303 | erasing from a run what the other phones do for themselves (reads, heartbeats, config requests once LIVE, refused writes) changes neither the phone's state nor any of its answers |
| Independence.SharedIsAutonomous | src/main.c:26-114 | what is delivered to whom never depends on any phone's queue, replay position or staged packet |
| Invariants.RunKeepsInv | src/upstream_session.c:287-445 | the global invariant holds in every reachable state: cache ready iff LIVE, REPLAYING implies LIVE and the rest of the replay is a tail of the segment selected by the same nonce its terminator carries, pending list without duplicates, slots distinct, staged and queued packets at most 512 bytes, driver invariant |
| Invariants.InitialInv | src/main.c:116-161 | the state at boot satisfies it |
| Invariants.CacheFrozenOnceLive | src/config_cache.c:52-127 | no step changes the arena contents after publication, and LIVE is never left |
| Invariants.StepTx | src/main.c:59-114 | which step asks for which transmission; every other step leaves the driver alone |
| Parking.NoPhoneIsStranded | src/upstream_session.c:206-218 | a phone that asked during the fetch and is tracked when the terminator arrives is REPLAYING with its latest nonce and its whole segment ahead |
| Parking.ServedIffAskedSinceStart | src/upstream_session.c:390-395 | a tracked phone is served at the terminator if and only if it asked since the fetch was started |
| Parking.ServedPhoneAskedIffPending | src/upstream_session.c:206-218 | a phone served at the terminator has itself asked since its latest connect iff it is PENDING then; otherwise it is CONNECTED and is replayed to with nonce 0 |
| Parking.ReusedConnectionIsServedUnasked | src/ble_gatt.c:427-439 | a run in which a new phone on a reused connection object is served without having asked |
| Parking.BootRequestIsForgotten | src/upstream_session.c:312 | a run in which a request made in BOOT is lost |
| Parking.ParkedAreThoseWhoAsked | src/upstream_session.c:414-445 | during the fetch the pending list contains exactly the connections that asked while tracked |
| Parking.AskingParks | src/ble_gatt.c:643-656 | a tracked phone that asked during the fetch is PENDING with its latest nonce and on the list |
| Parking.ClosingServesTheList | src/upstream_session.c:206-218 | the closing step arms exactly the tracked phones on the list, once each, and no other phone |
| Parking.ParkingHasRoom | src/upstream_session.c:434-440 | with a pool of six connection objects the overflow branch of the pending list cannot be reached |
| Parking.RunKeepsPool | src/upstream_session.c:60-64 | every tracked or listed connection of every run comes from the pool |
| Parking.NobodyIsParkedOnceLive | src/main.c:71-84 | once LIVE, a phone that is not PENDING never becomes so and the pending list stays empty |
| Routing.SingleFate | src/router.c:42-126 | the dispatch cascade gives every frame, decodable or not, exactly one of: cached, closing, swallowed, unicast, broadcast, as a flat table says |
| Routing.OtherPacketsGoToEveryone | src/router.c:75-126 | undecodable frames, encrypted packets, other port numbers than 256 and malformed headers go to everyone |
| Routing.AddressedPacketIsUnicast | src/ble_gatt.c:543-554 | a payload built with the proxy header goes to the lowest occupied slot whose id is its non-zero destination, and to everyone iff there is none |
| Registration.RegisteredUnderLatestId | src/ble_gatt.c:345-356 | in every run a tracked phone's id is the data of its latest NODE_REG write of four bytes at offset 0 since it connected, or four zeros |
| Registration.AddressedPacketReachesItsPhone | src/router.c:87-120 | if a phone last registered a non-zero id and no other tracked phone did, a packet built for that id is appended to its queue unless eight wait there, and changes no other phone's link |
| BleModel.FindsTheLowest | src/ble_gatt.c:543-554 | the lookup yields the lowest occupied slot with the id, and nothing iff no slot has it or it is zero |
| Routing.StepSlot | src/ble_gatt.c:400-439 | each step changes each slot by at most the one event delivered to its connection |
| LinkModel.EnqueueAppendsOrRefuses | src/ble_gatt.c:500-527 | up to eight packets of up to 512 bytes wait; an enqueue appends or changes nothing, with the three result codes |
| LinkModel.ReplayIsExact | src/ble_gatt.c:245-281 | once armed, fresh reads serve the segment in index order, the terminator and one empty answer that makes the phone ACTIVE, in exactly two reads more than the segment has frames, while the live queue only grows |
| LinkModel.ServesScriptThenQueue | src/ble_gatt.c:245-291 | in any state the fresh reads first serve what is left of a replay and then what leaves the queue |
| LinkModel.QueueIsFifo | src/ble_gatt.c:282-290 | packets taken out followed by the queue equal the initial queue followed by the accepted packets, over every run |
| LinkModel.EmptyReadMeansEmptyQueue | src/ble_gatt.c:276-290 | a fresh read is empty iff the queue is, or, in a replay, iff nothing is left to replay |
| LinkModel.EmptyReadWhileAPacketWaits | src/ble_gatt.c:276-281 | a run in which the read that ends the replay is empty while a packet waits |
| LinkModel.ZeroRepeatsTheNonce | src/ble_gatt.c:602-605 | a run in which a phone asks with 5 and then with 0 and gets the terminator of 5 again |
| LinkModel.FromnumCounts | src/ble_gatt.c:519-527 | FROMNUM equals the accepted packets plus the replay kicks modulo 2^32 |
| PhoneClient.CollectsWhatIsServed | src/ble_gatt.c:224-234 | what an orderly client puts together from the answers to its reads, with anything in between, is every packet served to it, the last as far as it has read |
| PhoneClient.ClientGetsTheReplay | src/ble_gatt.c:245-302 | a replay as such a client sees it, and when the link becomes ACTIVE |
| PhoneClient.ClientDrainsTheQueue | src/ble_gatt.c:282-302 | outside a replay such a client drains the live queue in order |
| LinkModel.LongReadReassembles | src/ble_gatt.c:243-302 | a fresh read and reads continuing it, of any sizes and with anything in between, concatenate to the staged packet as far as their room reaches |
| LinkModel.ReadsPastTheEndFail | src/ble_gatt.c:293-302 | a continued read fails iff it starts past the end of a staged packet, and is empty at its end |
| LinkModel.StagedIsStable | src/ble_gatt.c:293-302 | only a read at offset 0 changes the staged packet |
| LinkModel.LinkStepKeepsInv | src/ble_gatt.c:262-275 | every step keeps queue depth and packet sizes within the buffers |
| BleModel.BroadcastReachesEverySlotWithRoom | src/ble_gatt.c:569-583 | a broadcast of up to 512 bytes is appended once to every occupied slot with fewer than eight waiting, and changes no other |
| BleModel.ConnectKeepsInv | src/ble_gatt.c:400-425 | a new connection is tracked with fresh state, or refused unchanged exactly when all slots are taken; connections stay distinct and the counter right |
| BleModel.DisconnectKeepsInv | src/ble_gatt.c:427-439 | a disconnect frees the slot and keeps the counter right |
| BleModel.ServeArmsEachOnce | src/upstream_session.c:206-218 | serving a duplicate-free list arms each tracked connection on it once and touches no other slot |
| CacheModel.NothingLostIffFits | src/config_cache.c:66-86 | a burst is stored completely iff it has at most 128 frames and 4096 bytes |
| CacheModel.StoredExtends | src/config_cache.c:88-113 | later frames never disturb the ones stored before |
| CacheModel.KeepsPrefixIffNothingLaterFits | src/config_cache.c:68-86 | what is kept is a prefix of the burst iff nothing after the first rejected frame fits the room left then |
| CacheModel.GreedyNotPrefixExample | src/config_cache.c:68-86 | a burst of ten frames of 1..512 bytes of which a non-prefix is kept |
| CacheModel.EveryByteInExactlyOneFrame | src/config_cache.c:88-91 | the index entries tile the used part of the arena: each byte lies in exactly one frame |
| CacheModel.OrdinaryNonceGetsEverything | src/config_cache.c:161-193 | any other nonce selects the whole burst without terminators, in order |
| CacheModel.OnlyNodesGetsTheNodeInfos | src/config_cache.c:177-180 | 69421 selects the stored node_infos, in order |
| CacheModel.OnlyConfigGetsTheRest | src/config_cache.c:182-189 | 69420 selects, in order, the stored frames that are no terminators and no node_infos but the first |
| CacheModel.TwoRoundCoverage | src/config_cache.c:161-193 | as multisets, the 69420 replay plus the 69421 replay equal the full replay plus one copy of the first node_info, or none if there is none |
| CacheModel.SegmentServesNoTerminator | src/config_cache.c:169-173 | no cached terminator is ever replayed |
| Framing.FramingRoundTrip | src/uart_meshtastic.c:136-220 | any sequence of payloads of 1..512 bytes comes back exactly, and the parser ends idle |
| Framing.FeedInChunks | src/uart_meshtastic.c:184-191 | how the byte stream is cut into chunks does not matter |
| Framing.FeedKeepsInv | src/uart_meshtastic.c:160-180 | for every byte stream payload writes stay in bounds and callbacks get 1..512 bytes |
| Framing.ResynchronisesAfterNoise | src/uart_meshtastic.c:140-153 | noise without a frame start before each frame, even ending in 0x94, loses no frame and invents none |
| Framing.BackToBack | src/uart_meshtastic.c:215-224 | frames sent back to back are the special case of no noise |
| Framing.WireFormat | src/uart_meshtastic.c:215-220 | the frame of a one-byte payload, byte for byte, and its delivery |
| Framing.BadLengthIsSkipped | src/uart_meshtastic.c:160-170 | a header that announces nothing or more than 512 bytes delivers nothing and leaves the parser idle, any other does not |
| Framing.IdleAfter515QuietBytes | src/uart_meshtastic.c:136-182 | from every reachable state 515 bytes without 0x94 leave the parser idle |
| Framing.FiveHundredFourteenAreNotEnough | src/uart_meshtastic.c:136-182 | 514 do not always |
| TxModel.PutAppendsOrRefuses | src/uart_meshtastic.c:348-368 | up to four payloads of up to 512 bytes wait; a put appends or changes nothing, with the three result codes |
| TxModel.TransmitSubmits | src/uart_meshtastic.c:348-368 | an accepted packet leaves the work item submitted whatever the driver does, a refused one changes nothing |
| TxModel.TxStepKeepsInv | src/uart_meshtastic.c:201-233 | with producers and completion interrupts landing anywhere, each step keeps: accepted = called + in hand + queued in FIFO order, one transfer at most, buffer equal to the frame being sent, non-empty queue implies somebody will look at it |
| TxModel.TxRunKeepsInv | src/uart_meshtastic.c:282-293 | hence so does every run |
| TxModel.BufferStableWhileOwned | src/uart_meshtastic.c:215-223 | while the hardware owns the frame buffer no step changes it and no second transfer starts |
| TxModel.DriverStepsAreBounded | src/uart_meshtastic.c:201-233 | between two transmit calls the driver takes a bounded number of steps |
| TxModel.QuietDriverHasSentEverything | src/uart_meshtastic.c:348-368 | when the driver can take no step, every accepted packet has been passed to uart_tx in order: no wakeup is lost |
| TxModel.WireParsesBack | src/uart_meshtastic.c:215-224 | the bytes handed to the hardware parse back to exactly the non-empty payloads it took, in order |
| UpstreamTraffic.OnlyAllowedTrafficIsAccepted | src/main.c:59-114 | everything accepted for the node in any run is the boot request, the keepalive due then, or a phone write that is neither a config request nor a heartbeat |
| UpstreamTraffic.NoPhoneConfigRequestReachesNode | src/main.c:71-91 | what is passed to uart_tx and decodes as a config request is the proxy's own, what decodes as a heartbeat is its keepalive, and anything else is a forwarded write |
| UpstreamTraffic.NodeSeesOneConfigRequest | src/main.c:45-48 | over any run, of all packets accepted for the node exactly one is a config request, the proxy's own, and none before the start |
| UpstreamTraffic.StepQueues | src/main.c:59-114 | each step queues exactly the request, the keepalive or the write at offset 0 that is neither request nor heartbeat, if it is of at most 512 bytes and fewer than four packets wait |
| UpstreamTraffic.NodeGetsEverythingIff | src/uart_meshtastic.c:201-231 | over any run, once the driver is quiet a parser at the node delivers, in order, exactly the own request, the keepalives and the forwarded writes that were queued and are not empty, iff the hardware took every one of them |
| UpstreamTraffic.NthKeepaliveNonce | src/upstream_session.c:251-258 | the nonce after n keepalives is 2 + n mod (2^32 - 2), never 0 or 1, across every wrap |
| UpstreamTraffic.SwallowedIffOutstanding | src/router.c:65-73 | in every run a queueStatus outside the fetch is kept from the phones iff it is the first since a keepalive that was queued; any other goes to all |
| UpstreamTraffic.SwallowsNeverExceedKeepalives | src/upstream_session.c:463-470 | swallowed queueStatus frames plus the outstanding flag never exceed the keepalives queued |
| KeepaliveTimer.KeepaliveFiresWhenDue | src/upstream_session.c:450-461 | a keepalive may fire exactly when the session was started and 300000 ms passed since a phone's packet that decodes was last queued, the last keepalive, queued or refused, or the start |
| KeepaliveTimer.FiresAfterTrueSilenceIff | src/main.c:104-113 | a due keepalive follows five minutes in which nothing at all was queued for the node iff no write that does not decode was queued in them |
| KeepaliveTimer.FiresAfterRecentTraffic | src/main.c:63-69 | a run in which a keepalive is due one millisecond after an undecodable write was queued for the node |
| KeepaliveTimer.QuietIsBoundedIff | src/upstream_session.c:71-77 | with a punctual timer something is queued for the node at least every five minutes iff no keepalive was refused since, or the silence at the latest refusal is at most the time left to the next one |
| KeepaliveTimer.RefusedKeepaliveProlongsSilence | src/upstream_session.c:266-281 | a run with a punctual timer in which a refused keepalive lets the link stay silent for longer |
| Terminators.RunKeepsClassified | src/upstream_session.c:363-389 | in every run the cached frames decode as what they are stored as, and none is our own terminator |
| Terminators.OneTerminatorPerReplay | src/ble_gatt.c:607-618 | of all packets of a replay exactly the last decodes as a terminator, and with the phone's nonce |
| Terminators.PhoneSeesItsOwnTerminator | src/ble_gatt.c:271-275 | hence what a phone collects from power-on on, up to its empty packet, contains one terminator, the last, with its nonce |
| Terminators.TerminatorEchoesRequestIff | src/ble_gatt.c:602-605 | the terminator a phone collects carries the nonce it asked with iff that is not 0 or the phone has never had another |
| Advertising.AdvertisesIffRoom | src/ble_gatt.c:400-439 | in every run, failed connection attempts included, the proxy advertises iff fewer than six phones are connected and no failed attempt has stopped it since the last connect or disconnect |
| Advertising.FailureSilencesAnEmptyProxy | src/ble_gatt.c:402-405 | a run in which one failed attempt leaves an empty proxy that does not advertise |
| Advertising.NobodyIsRefused | src/ble_gatt.c:407-412 | hence the branch that rejects a connection is never taken |
| ProxyProtocol.HeaderLayout | src/proxy_protocol.c:29-54 | version 1, source, destination, content at bytes 0, 1, 5 and 9; built iff the content is at most 191 bytes and fits |
| ProxyProtocol.BuildThenParse | src/proxy_protocol.c:11-54 | a built header parses back to the same ids and content and fits its buffer |
| ProxyProtocol.ParseThenBuild | src/proxy_protocol.c:11-54 | exactly nine bytes or more beginning with the version parse, and are rebuilt byte for byte iff there are at most 200 |
| ConfigCacheStore.AppendKeepsLayout | src/config_cache.c:88-111 | appending behind the used part of the arena keeps every earlier entry and adds the new one |
| ConfigCacheStore.ConfigCache.AddFrame | src/config_cache.c:66-113 | the arena store does what the list specification does, same result code, earlier bytes and entries untouched |
| ConfigCacheStore.ConfigCache.FrameAt | src/config_cache.c:129-143 | an entry exists iff the index is below the count, and its bytes are that frame's |
| ConfigCacheStore.ConfigCache.FrameInSegment | src/config_cache.c:161-193 | the test on variants and the remembered own node_info index equals the definition by least node_info |
| ConfigCacheStore.ConfigCache.GetQueueStatus | src/config_cache.c:150-159 | found iff one is stored, and then the last one |
| CircularQueue.PacketQueue.Push | src/ble_gatt.c:519-523 | the circular buffer appends to the abstract queue |
| CircularQueue.PacketQueue.PopInto | src/ble_gatt.c:282-288 | and removes its oldest packet, copied whole to the staging buffer |
| ConnectionSlot.ServingOne | src/ble_gatt.c:262-275 | serving the frame under the cursor takes the first element off what remains |
| ConnectionSlot.SkippingServesTheSame | src/ble_gatt.c:258-261 | skipping a frame outside the segment changes nothing that remains |
| ConnectionSlot.ProxyConn.Read | src/ble_gatt.c:235-303 | a slot with cursor, arena and staging buffer answers as the ideal link; the missing-entry branch is dead |
| ConnectionSlot.ProxyConn.Arm | src/ble_gatt.c:602-630 | arming a replay is the ideal link's arming |
| ConnectionSlot.ProxyConn.Alloc | src/ble_gatt.c:162-180 | a newly allocated slot is a fresh link although old buffers stay |
| GattServer.BleGatt.OnConnected | src/ble_gatt.c:400-425 | the slot table moves as the specification's table; the result says whether the stack is asked to refuse the connection or to advertise again |
| GattServer.BleGatt.OnDisconnected | src/ble_gatt.c:427-439 | likewise; advertising is asked for in every case |
| GattServer.BleGatt.FromRadioRead | src/ble_gatt.c:235-303 | answers as the tracked link does, or with an error for an untracked connection |
| GattServer.BleGatt.Enqueue | src/ble_gatt.c:500-541 | result code in all four cases, and one enqueue for that connection only |
| GattServer.BleGatt.BroadcastFromRadio | src/ble_gatt.c:569-583 | one enqueue per occupied slot; returns how many had room |
| GattServer.BleGatt.GetConnByProxyId | src/ble_gatt.c:543-554 | the connection of the lowest occupied slot with the id; none iff no slot has it or it is zero |
| SessionWithNode.UpstreamSession.OnFromRadio | src/upstream_session.c:343-412 | session, cache and slots move as specified, and the result says whether the frame was consumed |
| SessionWithNode.UpstreamSession.OnPendingPhone | src/upstream_session.c:414-445 | served at once if the cache is ready, else listed once, else dropped when full |
| SessionWithNode.UpstreamSession.ServePendingPhones | src/upstream_session.c:206-218 | arms the listed phones in order and empties the list |
| SessionWithNode.UpstreamSession.Start | src/upstream_session.c:287-331 | the boot request and its effects, including a refused transmission |
| SessionWithNode.UpstreamSession.KeepaliveWork | src/upstream_session.c:251-282 | one heartbeat with the next nonce; the reply is awaited iff it was queued; the timer gets its full interval again |
| UartReceiver.UartRx.ProcessByte | src/uart_meshtastic.c:136-182 | the in-place parser is the specification's parser, stale lengths and bytes notwithstanding |
| UartTransmitter.UartTx.Transmit | src/uart_meshtastic.c:348-368 | result code in all three cases and the queued entry |
| UartTransmitter.UartTx.WorkHandler | src/uart_meshtastic.c:201-231 | the work handler takes the driver's atomic steps in order, also when a completion lands just before it looks at the in-progress flag or before uart_tx has returned |
| FirmwareImage.Firmware.RxWork | src/uart_meshtastic.c:184-191 | handling the bytes found in the ring buffer is a legal run of the composed model |
| FirmwareImage.Firmware.TxWork | src/uart_meshtastic.c:201-231 | so is a run of the transmit work handler, interrupts included |
| FirmwareImage.Firmware.RouterDispatch | src/router.c:42-126 | the dispatch cascade over the real objects is the specification's |
| FirmwareImage.Firmware.ToRadio | src/main.c:59-114 | so is the handling of a phone's write, including which writes push the keepalive out |
| FirmwareImage.Firmware.FromRadioRead | src/ble_gatt.c:235-303 | a read is one step of the composed model, with its answer |

## Left out

- LinkModel.LongReadReassembles: a client that stops early gets a prefix; that it reads on is up to the client.
- EndToEnd.BurstReachesPhone: the phone gets as much of the script as it reads; that it keeps reading is up to the phone.
- SessionWithNode.UpstreamSession.KeepaliveWork: the branch in which the encoder fails, which only logs, is excluded by the codec contract.
- SessionWithNode.UpstreamSession.Start: likewise its encoder branch, which stays in BOOT without touching anything else.
- ConnectionSlot.ProxyConn.Arm: likewise its encoder branch, which keeps the nonce but arms nothing.
- TxModel.WireParsesBack: an aborted transfer counts as handed over; how much of it reached the wire is unknown to the code too.
- Zephyr and hardware: notifications, LEDs, DMA buffers, receive re-enabling, thread priorities, failures of the advertising calls.
- Protobuf internals and `src/proto_handler.c`: covered by the codec contract.
- The receive ring buffer's capacity, whose overflow the code ignores: the model starts from the bytes actually stored.
- Weak memory: publishing the cache is one sequentially consistent step.
- The FROMNUM read characteristic, LOGRADIO and the CCC callbacks: no behaviour beyond returning a field or nothing.
- Logging, byte accounting of the burst, route tracing and the diagnostic strings of `src/proxy_protocol.c`.
- `proxy_id_from_str`, the unused AWAIT_WANT_CONFIG state and the unimplemented proposal in `docs/reconnect-persistence.md`.
- A header built without content but with a non-zero content length, which leaves those bytes as they were.
- `tools/`: provisioning scripts.
