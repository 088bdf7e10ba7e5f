# TecieBluesky IPC core in Dafny

TecieBluesky is a local server. Same-host clients connect to it over a named pipe and ask it to post to Bluesky.
This project models two sequential pieces of `TecieBluesky/Program.cs`:

- **`StreamString`, the framing codec.** A string is written as a two-byte big-endian length header followed by its UTF-16 little-endian bytes (RFC 2781, section 2.1).
  - The length is silently clamped to 65535 (`UInt16.MaxValue`).
  - `ReadString` reads the two header bytes with `ReadByte`, allocates a zero-filled buffer of that length, fills it with one `Read` call and decodes it.
  - The stream is the class `Pipe.PipeStream`. It holds the bytes the peer sends, a read position, and the bytes written so far.
  - `Framing.StreamString` has the same `ReadString`/`WriteString` methods as the source. Each method is proved against a specification function: `Frame` for writing, `ReadFrame` for reading.
- **`ServerThread`, one connection.** The server checks the client's key, answers READY, and switches on the operation tag (`A`, `E` or `U`). It then builds a publish request and writes one terminal frame, SUCCESS or FAILURE. This is the pure function `Protocol.Serve`.
  - The client's messages are its inputs.
  - The configured `TECKEY` value is an input.
  - The JSON decoder for the `E` payload is an input (`Text -> Option<EventPingInfo>`).
  - How the publish call ends is an input: a success result, an error result, or an exception out of `Wait()`.

Text is a sequence of 16-bit code units, as in a .NET string. Literals are converted with `Strings.Units`.

The model follows the code in three places where a reader might expect something else:
- **Unset key.** If `TECKEY` is unset, the expected key is the literal text "no key found", so a client that sends that text is accepted (`UnsetKeyAcceptsSentinel`). It is not a sentinel that always rejects.
- **`WriteString` return value.** It returns the untruncated encoded length plus 2, not the clamped length plus 2.
- **Short input in `ReadString`.** `ReadString` makes no second `Read` call. It fails only when the computed length is negative, which needs the stream to end inside the header. Otherwise it decodes a zero-padded buffer.

## Model

| member | source | states |
|---|---|---|
| `Strings.IndexFrom` | TecieBluesky/Program.cs:114 | the result is -1 or an index at or after `from` where the pattern occurs, and no earlier such index has an occurrence |
| `Strings.IndexOf` | TecieBluesky/Program.cs:114 | `string.IndexOf`: -1 when the pattern never occurs, otherwise the first index where it occurs |
| `Strings.IndexOfFirstUnit` | TecieBluesky/Program.cs:114 | the first occurrence is at `k` when the pattern occurs at `k` and its first unit appears nowhere before `k` |
| `Strings.Utf8Length` | TecieBluesky/Program.cs:115 | the UTF-8 byte count of a text lies between one and three bytes per code unit |
| `Strings.AsciiUtf8Length` | TecieBluesky/Program.cs:115 | ASCII text takes exactly one UTF-8 byte per unit, so its byte offsets equal its unit indexes |
| `Utf16.Encode` | TecieBluesky/Program.cs:189 | `GetBytes` yields exactly two bytes per code unit |
| `Utf16.Decode` | TecieBluesky/Program.cs:184 | `GetString` yields one unit per byte pair, plus one for an odd last byte |
| `Utf16.EncodeAt` | TecieBluesky/Program.cs:172 | unit `i` sits at bytes `2i` (low byte) and `2i+1` (high byte), so the encoding is little-endian |
| `Utf16.EncodeAppend` | TecieBluesky/Program.cs:189 | encoding distributes over concatenation |
| `Utf16.EncodePrefix` | TecieBluesky/Program.cs:189 | the first `2k` encoded bytes are the encoding of the first `k` units |
| `Utf16.DecodeEncode` | TecieBluesky/Program.cs:184 | decoding an encoding gives back the text |
| `Utf16.EncodeDecode` | TecieBluesky/Program.cs:184 | encoding the decoding of an even number of bytes gives back the bytes |
| `Utf16.DecodeOddPrefix` | TecieBluesky/Program.cs:184 | decoding the first `2k+1` encoded bytes gives the first `k` units followed by U+FFFD |
| `Pipe.PipeStream.constructor` | TecieBluesky/Program.cs:166 | a fresh stream has read nothing and written nothing |
| `Pipe.PipeStream.ReadByte` | TecieBluesky/Program.cs:179-180 | returns the next byte and advances by one, or returns -1 at the end without moving |
| `Pipe.PipeStream.Read` | TecieBluesky/Program.cs:182 | copies `min(count, remaining)` bytes to `buffer[offset..]`, advances by that many, and leaves the rest of the buffer unchanged |
| `Pipe.PipeStream.WriteByte` | TecieBluesky/Program.cs:195-196 | appends exactly one byte to the output |
| `Pipe.PipeStream.Write` | TecieBluesky/Program.cs:197 | appends exactly `buffer[offset..offset+count]` to the output |
| `Framing.Frame` | TecieBluesky/Program.cs:189-197 | a frame is `2 + min(n, 65535)` bytes long, its header declares exactly the payload length that follows, and the payload is the first bytes of the encoding |
| `Framing.Received` | TecieBluesky/Program.cs:181-182 | the buffer handed to the decoder always has exactly the declared length |
| `Framing.ReadIntoZeroedBuffer` | TecieBluesky/Program.cs:181-182 | a zero-filled buffer of the declared length, whose first bytes were copied from the delivered payload, is exactly the buffer `ReadFrame` decodes |
| `Framing.ReadFrame` | TecieBluesky/Program.cs:175-185 | a read never consumes more than is there, fails only when at most one byte is left, and with two or more bytes consumes the header plus what is there of the declared payload |
| `Framing.FrameTruncates` | TecieBluesky/Program.cs:191-197 | above 65535 encoded bytes, the header is `255, 255` and exactly the first 65535 encoded bytes follow, with no error |
| `Framing.RoundTrip` | TecieBluesky/Program.cs:175-201 | if the text has at most 32767 units (so at most 65535 encoded bytes), reading its frame returns the text and consumes exactly the `2 + 2·|s|` frame bytes, whatever follows |
| `Framing.TruncatedRoundTrip` | TecieBluesky/Program.cs:175-201 | if the text was truncated, reading its frame returns the first 32767 units plus U+FFFD and consumes 65537 bytes |
| `Framing.StreamString.constructor` | TecieBluesky/Program.cs:169-173 | the codec wraps the given stream |
| `Framing.StreamString.ReadString` | TecieBluesky/Program.cs:175-185 | the result and the new read position are those `ReadFrame` gives for the unread input |
| `Framing.StreamString.WriteString` | TecieBluesky/Program.cs:187-201 | appends exactly `Frame(s)` to the output and returns the untruncated encoded length plus 2, which is never less than what was written |
| `Framing.Exchange` | TecieBluesky/Program.cs:175-201 | a frame written at one end of a pipe and read at the other yields the text, or its truncation plus U+FFFD |
| `Protocol.ExpectedKey` | TecieBluesky/Program.cs:86 | the expected key is the `TECKEY` value, or "no key found" when it is unset |
| `Protocol.DispatchRequest` | TecieBluesky/Program.cs:99-131 | a tag other than A, E or U is invalid; E fails exactly when decoding fails; A publishes the message verbatim; U publishes "Update: " + message; E publishes the event post |
| `Protocol.EventPostText` | TecieBluesky/Program.cs:108-113 | the event body with a link is exactly "An event is starting! Join Here!", 32 units long |
| `Protocol.EventPromptAt` | TecieBluesky/Program.cs:113 | "Join Here!" occupies units 22 to 32 of that body |
| `Protocol.EventPostAscii` | TecieBluesky/Program.cs:108-113 | every unit of that body is ASCII |
| `Protocol.EventPromptIndex` | TecieBluesky/Program.cs:114 | `IndexOf` finds "Join Here!" at 22 in that body |
| `Protocol.EventPromptBytes` | TecieBluesky/Program.cs:115 | "Join Here!" is 10 UTF-8 bytes, and the body's first 22 and 32 units are 22 and 32 bytes, so facet offsets in bytes equal unit indexes |
| `Protocol.EventLinkFacet` | TecieBluesky/Program.cs:108-120 | with a link there is one facet from 22 to 32, exactly the UTF-8 bytes of "Join Here!", targeting the link, and an embed of the event's name and description |
| `Protocol.EventWithoutLink` | TecieBluesky/Program.cs:108-121 | without a link the body is "An event is starting!" with an embed and no facet |
| `Protocol.Serve` | TecieBluesky/Program.cs:85-152 | one connection writes at most three frames |
| `Protocol.AuthGate` | TecieBluesky/Program.cs:86-95 | a wrong key yields exactly the frame "Unauthorized client!" and nothing else; the right key is echoed back, and READY follows once the tag arrives |
| `Protocol.UnsetKeyAcceptsSentinel` | TecieBluesky/Program.cs:86-90 | with `TECKEY` unset, exactly the clients that send "no key found" pass the handshake |
| `Protocol.PublishMatchesDispatch` | TecieBluesky/Program.cs:99-134 | a publish request is made if and only if the handshake passed, three messages arrived and the dispatch publishes, and it is the request the dispatch built |
| `Protocol.TerminalFrame` | TecieBluesky/Program.cs:133-152 | a third frame is written if and only if a publish call returned; it is SUCCESS for a success result and FAILURE for an error result |
| `Protocol.UnknownTagIsSilent` | TecieBluesky/Program.cs:95-130 | an unknown tag still gets READY and its message is read, but nothing is published and no status frame follows |
| `Protocol.MalformedEventIsSilent` | TecieBluesky/Program.cs:105-152 | an E message that fails to decode ends the connection with no publish and no status frame |

## Left out

- The worker pool in `MainAsync` (lines 40-66) is left out because its point is thread lifecycle and concurrency. Its polling loop never exits, since `i` is never decremented, so "Server threads exhausted" is never printed.
- Pipe set-up, waiting for a connection, closing, and `Flush` are left out. `Flush` changes nothing in the modelled stream.
- Console logging is left out, including the indented JSON echo of the event.
- The Bluesky session and `CreatePostAsync` calls are left out. They appear only as a `PublishRequest` and a `PublishOutcome`.
- Newtonsoft JSON decoding is left out. It is the `decodeEvent` input; a decode that throws or yields null is `None`.
- Pipe.PipeStream.Read: a live pipe may hand over fewer bytes than requested while more are still coming. The model does not capture that. `Read` delivers every requested byte the peer ever sends, and stops short only at the end of the stream.
- Protocol.Serve: works on the client's messages, not on its bytes. A message missing from the sequence is a read that throws. A partial frame from the client is not modelled at this level; `ReadFrame` covers it for a single read.
- Real UTF-16 validity is not modelled. `GetBytes` would replace lone surrogates; the model keeps every code unit as it is. Decoding an odd last byte as U+FFFD is the model's reading of the decoder's replacement behaviour.
- `string.IndexOf` with `StringComparison.InvariantCulture` is modelled as ordinal search. The two agree on the ASCII text it is applied to.
- `Encoding.Default` is taken to be UTF-8.
- Facets and embeds carry only the fields the source sets. The embed's thumbnail is always null and is not modelled.
