# Kismet device queries, packet slots and duplex ring buffers — a Dafny model

This project models three sequential pieces of Kismet's live-query layer and proves
properties of them with Dafny.

- **Packet component slots** (`packet.dfy`, module `Packet`). A `kis_packet` has
  `MAX_PACKET_COMPONENTS` optional component slots. `Insert` throws on an index outside
  the table and otherwise overwrites the slot. `Fetch` answers "absent" for such an
  index. `Erase` empties a slot. `Destroy`, the destructor, releases the components the
  packet owns. A component is owned when its `selfDestruct` flag is set. A ghost
  multiset `released` records every release, so a double release would be visible.
- **Duplex ring-buffer handler** (`ringbuffer_handler.dfy`, modules `Ringbuf` and
  `BufferHandler`). `RingbufferHandler` owns an optional read buffer and an optional
  write buffer. A size of 0 at construction leaves that direction absent. Each buffer is
  a bounded FIFO of bytes. A write accepts `min(n, C - used)` bytes. A read takes bytes
  from the front, and a peek returns them without taking them. A put on a present
  direction calls that direction's observer with the count accepted. The ghost log
  `notifications` records every such call.
- **Device query request logic** (`devicetracker_httpd.dfy`, module
  `DeviceTrackerHttpd`). It covers path verification, the GET stream responses, the POST
  responses (by-MAC, by-key with `set_name`/`set_tag`, last-time with an optional
  regex) and the batch MAC endpoint. The device table is a value with three parts: the
  key map, the devices in worker visiting order, and the MAC multimap in iteration
  order. The functions these endpoints call but do not define are parameters, bundled
  in `Collaborators`. They are URL tokenising, suffix stripping and lookup, the
  serialiser check, key and MAC parsing (each sets an error flag), `sscanf("%ld")`,
  child-path lookup and the regex worker. A response is described, not written. It
  gives the status code, what would be handed to the serialiser, and the device change
  requested, if any.

`wrappers.dfy` holds `Option`, `Outcome` and `Min`.

The pure decision logic is written as functions: path verification, the GET and POST
dispatch, the timestamp rule and the worker filter. The loops that build result vectors
are methods, each proved equal to a specification function that the dispatch functions
use. These loops are the `fields` parser, the `equal_range` collector, the summarising
loop and the batch MAC handler.

Source behaviours the model keeps, which a reader might not expect:

- Error statuses are not uniformly client errors. GET by-key failures answer 500. Other
  GET failures keep the default status and produce no body. Batch MAC failures answer
  500.
- The by-key GET and POST handlers do not check the key's parse-error flag. They look
  the key up regardless. Only path verification checks the flag.
- Path verification accepts a GET `last-time/<ts>/devices.ekjson` without asking
  whether the suffix can be serialised. The stream handler does ask, and gives an empty
  200 response when it cannot (`AcceptedGetIsServed` carries this as a hypothesis).
- A POST command's `last_time` key is parsed, with the negative-means-relative rule,
  into `post_ts`. No branch uses it, so a last-time POST filters on the timestamp in
  the URL only. The `wrapper` key is likewise read and never used.
- A POST by-key request with a target other than `device`, `set_name` or `set_tag` is
  answered "OK" with status 200. So is a POST whose second token is not `devices`, or
  whose family is unknown.

## Model

| member | source | states |
|---|---|---|
| `Packet.KisPacket.constructor` | packet.cc:38-51 | every one of the MAX_PACKET_COMPONENTS slots is empty, error/filtered/duplicate are 0, nothing released |
| `Packet.KisPacket.Destroy` | packet.cc:53-61 | destruction releases exactly `OwnedAll` of the current slots (loop proved against it) |
| `Packet.KisPacket.Insert` | packet.cc:63-74 | an index >= MAX fails with IndexOutOfBounds and leaves every slot unchanged; a valid index overwrites that slot only, even an occupied one, and releases nothing |
| `Packet.KisPacket.Fetch` | packet.cc:76-81 | returns the slot's content, and absent (null) for an index outside the table, never failing |
| `Packet.KisPacket.Erase` | packet.cc:83-96 | an out-of-range index is a no-op; otherwise the slot becomes empty and the old component is released iff present and self-destructing |
| `Packet.OwnedAllCount` | packet.cc:53-61 | destruction releases each self-destructing component once per slot holding it, and never a borrowed one |
| `Packet.FetchAfterInsert` | packet.cc:69-80 | after insert at a valid index, fetch there returns the inserted component and every other slot reads as before |
| `Packet.EraseIdempotent` | packet.cc:90-95 | erasing an already-erased slot changes nothing and releases nothing |
| `Packet.EraseThenDestroy` | packet.cc:83-96 | erase followed by destruction releases exactly what destruction alone would, so no component is released twice through one slot |
| `Packet.BorrowedNeverReleased` | packet.cc:58-59 | a component without `self_destruct` is released neither by erase nor by destruction |
| `Ringbuf.Accepted` | ringbuffer_handler.cc:157 | a write accepts no more than offered and no more than fits, and is short only when it fills the buffer |
| `Ringbuf.AfterWrite` | ringbuffer_handler.cc:157 | a write keeps the queued bytes in front and never exceeds the capacity |
| `Ringbuf.WritesThatFitAreQueuedInOrder` | ringbuffer_handler.cc:147-170 | writes whose total fits in the free space are all queued, in write order |
| `Ringbuf.ReadBackIsFifo` | ringbuffer_handler.cc:111-118 | from empty, writes totalling W <= C are read back, all W bytes, in write order |
| `Ringbuf.OversizedWriteTruncates` | ringbuffer_handler.cc:157 | a single write of W > C bytes into an empty buffer keeps exactly the first C bytes |
| `Ringbuf.PeekMatchesRead` | ringbuffer_handler.cc:129-136 | a peek returns exactly the bytes a read of the same size takes, and read plus remainder is the old queue |
| `Ringbuf.RingbufV2.Size` | ringbuffer_handler.cc:61 | reports the capacity given at construction |
| `Ringbuf.RingbufV2.Used` | ringbuffer_handler.cc:79 | reports the number of queued bytes |
| `Ringbuf.RingbufV2.Available` | ringbuffer_handler.cc:97 | free plus used equals the capacity |
| `Ringbuf.RingbufV2.Write` | ringbuffer_handler.cc:157 | appends the accepted prefix of the data and returns its length |
| `Ringbuf.RingbufV2.Read` | ringbuffer_handler.cc:115 | removes and returns the front of the queue |
| `Ringbuf.RingbufV2.Peek` | ringbuffer_handler.cc:133 | returns the front of the queue and leaves it unchanged |
| `BufferHandler.RingbufferHandler.constructor` | ringbuffer_handler.cc:27-36 | a direction of size 0 is absent; otherwise it is a fresh empty buffer of that size; no observers registered |
| `BufferHandler.RingbufferHandler.GetReadBufferSize` | ringbuffer_handler.cc:57-64 | the read capacity given to the constructor, 0 when absent |
| `BufferHandler.RingbufferHandler.GetWriteBufferSize` | ringbuffer_handler.cc:66-73 | the write capacity given to the constructor, 0 when absent |
| `BufferHandler.RingbufferHandler.GetReadBufferUsed` | ringbuffer_handler.cc:75-82 | bytes queued for reading, at most the capacity, 0 when absent |
| `BufferHandler.RingbufferHandler.GetWriteBufferUsed` | ringbuffer_handler.cc:84-91 | bytes queued for writing, at most the capacity, 0 when absent |
| `BufferHandler.RingbufferHandler.GetReadBufferFree` | ringbuffer_handler.cc:93-100 | free plus used is the read capacity; 0 when absent |
| `BufferHandler.RingbufferHandler.GetWriteBufferFree` | ringbuffer_handler.cc:102-109 | free plus used is the write capacity; 0 when absent |
| `BufferHandler.RingbufferHandler.GetReadBufferData` | ringbuffer_handler.cc:111-118 | consumes and returns the front of the read queue with its count; 0 and no change when absent |
| `BufferHandler.RingbufferHandler.GetWriteBufferData` | ringbuffer_handler.cc:120-127 | consumes and returns the front of the write queue with its count; 0 and no change when absent |
| `BufferHandler.RingbufferHandler.PeekReadBufferData` | ringbuffer_handler.cc:129-136 | returns the front of the read queue without consuming it; 0 when absent |
| `BufferHandler.RingbufferHandler.PeekWriteBufferData` | ringbuffer_handler.cc:138-145 | returns the front of the write queue without consuming it; 0 when absent |
| `BufferHandler.RingbufferHandler.PutReadBufferData` | ringbuffer_handler.cc:147-170 | absent: returns 0, notifies no one; present: queues the accepted bytes, returns their count, and notifies the registered read observer exactly once with that count; the write side is untouched |
| `BufferHandler.RingbufferHandler.PutWriteBufferData` | ringbuffer_handler.cc:172-195 | the mirror image for the write direction and the write observer |
| `BufferHandler.RingbufferHandler.SetReadBufferInterface` | ringbuffer_handler.cc:197-201 | the read observer becomes the one given |
| `BufferHandler.RingbufferHandler.SetWriteBufferInterface` | ringbuffer_handler.cc:203-207 | the write observer becomes the one given |
| `BufferHandler.RingbufferHandler.RemoveReadBufferInterface` | ringbuffer_handler.cc:209-213 | the read observer is detached |
| `BufferHandler.RingbufferHandler.RemoveWriteBufferInterface` | ringbuffer_handler.cc:215-219 | the write observer is detached |
| `BufferHandler.RemovedObserverIsNotNotified` | ringbuffer_handler.cc:209-213 | after the read observer is removed, a put of read data produces no notification |
| `BufferHandler.SetObserverIsNotified` | ringbuffer_handler.cc:197-201 | after an observer is set, a put on the present read direction notifies exactly it, once, with the count put, and the bytes are visible to later reads |
| `BufferHandler.AbsentDirectionAnswersZero` | ringbuffer_handler.cc:27-36 | a direction built with size 0 reports size, used and free as 0 and a put on it returns 0 |
| `DeviceTrackerHttpd.EqualRangeSize` | devicetracker_httpd.cc:372-375 | a by-MAC lookup returns as many devices as the multimap counts under the MAC |
| `DeviceTrackerHttpd.EqualRangeMembers` | devicetracker_httpd.cc:372-375 | a device is in a by-MAC lookup iff the multimap pairs it with that MAC |
| `DeviceTrackerHttpd.CollectByMac` | devicetracker_httpd.cc:370-375 | the push_back loop over equal_range collects exactly the multimap's devices for the MAC, in order |
| `DeviceTrackerHttpd.DevicesSeenAfterMembers` | devicetracker_httpd.cc:400-409 | the last-time worker keeps a device iff its last-seen time is strictly greater than the threshold |
| `DeviceTrackerHttpd.DevicesSeenAfterAppend` | devicetracker_httpd.cc:695-704 | the last-time filter keeps visiting order |
| `DeviceTrackerHttpd.ThresholdMeaning` | devicetracker_httpd.cc:389-393 | a negative timestamp -s selects devices seen in the last s seconds before now; a non-negative one is absolute |
| `DeviceTrackerHttpd.FieldsSpecRejects` | devicetracker_httpd.cc:484-507 | a `fields` list is rejected iff one entry is malformed (an array that is not exactly two strings) |
| `DeviceTrackerHttpd.BadRenamePairRejects` | devicetracker_httpd.cc:492-500 | an array entry whose length is not 2 rejects the whole list |
| `DeviceTrackerHttpd.ParseFields` | devicetracker_httpd.cc:488-506 | the fields loop yields the projection list entry by entry (strings, rename pairs, others skipped) or rejects |
| `DeviceTrackerHttpd.SummarizeDevices` | devicetracker_httpd.cc:715-722 | one summary per device, in the order of the devices |
| `DeviceTrackerHttpd.ParseMacListRejects` | devicetracker_httpd.cc:751-761 | the `devices` list is accepted iff every entry is a string holding a valid MAC, and then yields one MAC per entry |
| `DeviceTrackerHttpd.GroupByMacsAppend` | devicetracker_httpd.cc:771-776 | the batch result lists the devices of earlier MACs before those of later ones |
| `DeviceTrackerHttpd.GroupByMacsMembers` | devicetracker_httpd.cc:771-776 | a device is in the batch result iff the multimap pairs it with a listed MAC |
| `DeviceTrackerHttpd.MultimacEndpHandler` | devicetracker_httpd.cc:741-795 | missing `devices` or any bad MAC gives 500 with nothing collected; otherwise 200 with each MAC's devices in the order the MACs were listed |
| `DeviceTrackerHttpd.VerifyPath` | devicetracker_httpd.cc:53-223 | only GET and POST are accepted; the exact ekjson URL is; otherwise an accepted path has at least 5 tokens under /devices/ in a known family, with the by-key, by-mac and last-time acceptance conditions stated as if-and-only-ifs |
| `DeviceTrackerHttpd.CreateStreamResponse` | devicetracker_httpd.cc:225-419 | a GET never mutates; serialised output comes with 200; only by-key failures answer 500; non-GET gets nothing; the ekjson URL streams every device |
| `DeviceTrackerHttpd.StreamByKeyMissingDevice` | devicetracker_httpd.cc:309-317 | a GET by-key naming no device answers 500 with an error text and nothing serialised |
| `DeviceTrackerHttpd.StreamByKeyDevice` | devicetracker_httpd.cc:319-354 | for an existing device, the `device` target serialises that device (5 tokens) or the sub-element its child path names; an unknown child path or any other target answers 500 with an error text |
| `DeviceTrackerHttpd.StreamByMacLists` | devicetracker_httpd.cc:355-379 | a GET by-mac with a serialisable suffix and a valid MAC answers 200 with exactly the devices the multimap pairs with that MAC, as many as it counts |
| `DeviceTrackerHttpd.StreamLastTimeLists` | devicetracker_httpd.cc:380-413 | a GET last-time response lists exactly the devices seen strictly after the (relative-to-now when negative) threshold |
| `DeviceTrackerHttpd.AcceptedGetIsServed` | devicetracker_httpd.cc:131-145 | a GET that verification accepts is served with serialised data and 200, given a serialisable suffix on last-time paths |
| `DeviceTrackerHttpd.PostComplete` | devicetracker_httpd.cc:421-739 | status is 200 or 400; 400 carries only an error text and no change; too short a URL, a missing or malformed command rejects; a device change needs a session and the target device, and carries exactly the `username` or `tagname`/`tagvalue` strings of the command |
| `DeviceTrackerHttpd.PostRejectsBadRenamePair` | devicetracker_httpd.cc:495-500 | a `fields` array entry of length other than 2 rejects the POST with 400 |
| `DeviceTrackerHttpd.PostLastTimeWithoutRegex` | devicetracker_httpd.cc:706-722 | with no regex, the summaries are exactly the time-filtered devices, in order, each carrying the parsed `fields` list |
| `DeviceTrackerHttpd.PostLastTimeWithRegex` | devicetracker_httpd.cc:695-722 | with a regex, the summaries are exactly the devices the regex worker keeps out of the time-filtered ones, in order, each carrying the parsed `fields` list |
| `DeviceTrackerHttpd.PostByMacSummaries` | devicetracker_httpd.cc:548-580 | a POST by-mac for `devices` answers 200 with one summary per device the multimap pairs with the MAC, as many as it counts, each carrying the parsed `fields` list |
| `DeviceTrackerHttpd.PostByKeyDeviceSummary` | devicetracker_httpd.cc:599-620 | a POST by-key for `device` of an existing device answers 200 with that device's summary over the parsed `fields` list |
| `DeviceTrackerHttpd.NoSessionNoMutation` | devicetracker_httpd.cc:623-651 | without a valid session no device is changed, and a by-key set_name or set_tag request is refused with 400 (the thrown "login required" is caught at 729-733) |
| `DeviceTrackerHttpd.SetNameNeedsUsername` | devicetracker_httpd.cc:630-631 | a set_name command without `username` changes nothing, and on a by-key path is refused with 400 |
| `DeviceTrackerHttpd.SetTagNeedsTagKeys` | devicetracker_httpd.cc:647-651 | a by-key set_tag command missing `tagname` or `tagvalue` is refused with 400 |
| `DeviceTrackerHttpd.SetNameApplied` | devicetracker_httpd.cc:623-638 | with a valid session, a serialisable suffix, an existing device and a well-formed command holding `username`, the request renames exactly that device to that string and answers "OK" with 200 |
| `DeviceTrackerHttpd.SetTagApplied` | devicetracker_httpd.cc:641-659 | with a valid session, a serialisable suffix, an existing device and a well-formed command holding `tagname` and `tagvalue`, the request sets exactly that tag of that device to that value and answers "OK" with 200 |

## Left out

- Locking: the handler and callback mutexes, the device-list shared and demand locks and the per-device mutexes are concurrency; every operation is modelled as sequential.
- The internals of RingbufV2 (ringbuf2.h is not part of this model): it is an abstract bounded FIFO, with no wrap-around layout.
- Observer callbacks are foreign code: a call is recorded as an entry of the ghost log, and an observer that calls back into the handler is not modelled.
- The initial observer fields: the constructor does not set `rbuf_notify` or `wbuf_notify`, and ringbuffer_handler.h is not part of this model; the model assumes they start null.
- The handler's destructor (`~RingbufferHandler`, deleting its buffers) is not modelled; Dafny has no manual deallocation. The packet's `delete` of a component is represented by the ghost `released` multiset.
- MAX_PACKET_COMPONENTS is defined in packet.h, which is not part of this model; the model uses Kismet's value 64. Indices and sizes are unbounded naturals; since every index past the table behaves alike, the width of `unsigned int` and `size_t` does not matter.
- The `fprintf` warning on overwriting an occupied slot and the `globalreg` pointer kept by the packet.
- Timestamps (`long`, `time_t`, `int64_t`) are unbounded integers, so the overflow of `now + lastts` is not modelled; `time(0)` is the parameter `now`.
- The serialisers (`entrytracker->serialize`, `json_adapter::serializer`), the summarisers (`SummarizeSingletracker_element`, `summarize_with_structured`), the rename map and the regex worker are opaque: responses name what would be serialised, and the regex worker is a parameter.
- `structured_json` parsing is not modelled: the command dictionary arrives parsed, or absent when missing or unparseable. structured.h is not part of this model; its accessors are taken to throw when a value has the wrong type (`as_vector` on a non-array, `as_string` and `key_as_string` on a non-string, `key_as_number` on a non-number).
- The `wrapper` key: it is read but never used, and a non-string wrapper is not modelled as an error.
- The implementations of `device_key`, `mac_addr`, `str_tokenize`, `httpd_strip_suffix`, `get_suffix`, `httpd_can_serialize`, `sscanf` and `get_child_path`: they are fields of `Collaborators`. `fetch_device` is a lookup in the key map.
- `set_device_user_name` and `set_device_tag` are not part of this model: a request to change a device is returned as a `Mutation`.
- The default HTTP status of a connection is set outside these files; the model takes it to be 200.
- Stream-buffer setup, the `set_aux`/`set_sync` cleanup functions and the `MHD_YES` return value are web-server plumbing.
- Exact error-message texts: an error body is `ErrorText`.
- `all_phys_endp_handler` only assembles tracker elements from the phy handler maps, and devicetracker_httpd_pcap.h only declares an endpoint binding.
- DeviceTrackerHttpd.PostComplete: an exception thrown by the regex worker (a malformed `regex`, say), by the summariser or by the serialiser is caught and answered with 400 by the source; these collaborators are opaque here, so the by-mac, by-key `device` and last-time branches always answer 200.
- DeviceTrackerHttpd.MultimacEndpHandler: a failure while summarising or serialising the collected devices (also caught as 500) is not modelled; only failures of the `devices` list answer 500 here.
