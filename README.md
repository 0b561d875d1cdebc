# dnstap full output for Fluentd, in Dafny

This project models the "full" Fluentd output of the dnstap collector
(`dnstap_fluentd_full_output.go`). The output handles one decoded dnstap record at a time:

1. It picks the DNS payload of the record and parses it.
2. It builds one flat event map with these fields:
   - the fields of the record's class: timestamp, identity, anonymized address, port and zone;
   - fields from the message header and the first question;
   - the suffix labels `tld`, `2ld`, `3ld` and `4ld` of the question name.
3. It posts the event to Fluentd under the configured tag.
4. Parse failures and post failures go to an error channel, gated by the log level.

The model has five modules:

- `Basics`: bytes and an `Option` type.
- `Masks`: `net.CIDRMask` and `net.IP.Mask` as functions on byte sequences. Their lemmas cover each bit: the prefix mask of section 3.1 of RFC 4632, that masking only clears bits, and that masking twice changes nothing more.
- `Labels`: Go's `strings.Split` and `strings.Join` on ".", and the label field of one depth. The lemmas cover split/join round trips, that the slice stays in bounds, the fallback to the whole name, that a field is a suffix of the name, nesting across depths, and the worked examples.
- `Dnstap`: the input record, the twelve message types with their wire codes and the query/response classification, and the parsed DNS message.
- `FullOutput`: the output value with its two masks, the event keys, and the specification `HandleSpec` of one call.
  - The handler itself is the method `Handle`. It builds the event map one key at a time (`PutRoleFields`, `PutCommonFields`, `PutLabelFields`) and is proved to equal `HandleSpec`.
  - The label loop runs over an arbitrary iteration order of the `names` table, because Go randomises map iteration order.
  - `FullOutputProperties` states what an event contains: its exact key set, the separation between query and response fields, each value, the anonymization of addresses, and an end-to-end example.

The handler's output state is set once by its constructor and never changes afterwards. It is therefore a datatype built by the function `NewFullOutput`, not a class.

Some of what the handler uses comes from outside and is passed in:

- the DNS wire parser, as `unpack`;
- the string tables of the enum and DNS libraries, as `Tables`;
- the logging level;
- whether `Post` fails, as `postFails`.

What the handler sends to `Post` and to its error channel comes back as an `Outcome`:

- `Dropped(reports)`: the payload did not parse.
- `Panicked`: the message parsed, but its question section is empty.
- `Posted(tag, event, reports)`: the event was posted.

## Model

| member | source | states |
|---|---|---|
| Masks.CidrMask | dnstap_fluentd_full_output.go:52-53 | for bits 32 or 128 and 0 <= ones <= bits, a mask of bits/8 bytes whose bit i is set exactly when i < ones; the empty (nil) mask otherwise |
| Masks.PrefixBytesBits | dnstap_fluentd_full_output.go:52-53 | the library's byte-filling loop sets exactly the first n bits |
| FullOutput.NewFullOutput | dnstap_fluentd_full_output.go:49-55 | keeps the config and tag; the IPv4 mask has exactly the first ipv4Mask bits of 32 and the IPv6 mask the first ipv6Mask bits of 128 when those are in range, nil otherwise |
| FullOutputProperties.MaskExampleSlash24 | dnstap_fluentd_full_output.go:52 | a prefix length of 24 gives the mask 255.255.255.0 |
| Masks.ApplyMask | dnstap_fluentd_full_output.go:89 | a masked address exists exactly when address and mask have the same length, and it has the address's length |
| Masks.ApplyMaskBits | dnstap_fluentd_full_output.go:88-92 | a bit of the masked address is set exactly when the address and the mask both set it, so masking only clears bits |
| Masks.ApplyMaskIdempotent | dnstap_fluentd_full_output.go:88-92 | masking an already masked address with the same mask gives it back unchanged |
| Masks.CidrMaskedAddressBits | dnstap_fluentd_full_output.go:88-92 | masking with the CIDR mask keeps the first `ones` bits of the address and clears every bit after them |
| FullOutput.MaskAddress | dnstap_fluentd_full_output.go:88-92 | a 4-byte address is masked with the IPv4 mask and any other with the IPv6 mask; the masked form exists exactly when the address and the chosen mask have the same length, has the address's length, and sets no bit the address does not set |
| FullOutput.MaskAddressAnonymizes | dnstap_fluentd_full_output.go:88-92 | with valid prefix lengths a 4-byte address keeps exactly its first ipv4Mask bits, a 16-byte one its first ipv6Mask bits, and any other length has no masked form (nil) |
| FullOutput.MaskAddressIdempotent | dnstap_fluentd_full_output.go:99-103 | anonymizing an emitted address again changes nothing |
| Dnstap.FromCode | dnstap_fluentd_full_output.go:82-96 | every wire code decodes to a well-formed type that carries that code |
| Dnstap.CodeRoundTrip | dnstap_fluentd_full_output.go:82-96 | a well-formed type survives encoding to its code and decoding back |
| Dnstap.Classify | dnstap_fluentd_full_output.go:82-106 | a type is in neither arm exactly when it is not one of the twelve listed types; for a well-formed type the query arm takes exactly the odd codes 1 to 11 and the response arm exactly the even codes 2 to 12 |
| Dnstap.ClassifyByCode | dnstap_fluentd_full_output.go:82-106 | the query arm takes exactly the odd codes 1 to 11, the response arm exactly the even codes 2 to 12, and any other code takes neither |
| FullOutput.SelectPayload | dnstap_fluentd_full_output.go:66-73 | the query message when the record carries one, the response message otherwise |
| FullOutput.SelectPayloadAsWritten | dnstap_fluentd_full_output.go:69-70 | as written the query getter is always called: the query message when present, the empty payload when it is absent, whatever the response message holds |
| FullOutput.AsWrittenDropsResponseOnly | dnstap_fluentd_full_output.go:69-74 | for a record with only a response message the payload as written is the empty query payload and fails to parse, while the corrected choice parses the response |
| FullOutput.SelectionsAgreeWithQuery | dnstap_fluentd_full_output.go:69-73 | when a query message is present the written and the corrected payload choices agree |
| FullOutputProperties.AsWrittenDropsResponseOnlyRecord | dnstap_fluentd_full_output.go:69-79 | a record with only a response message whose response parses with a question is dropped by the handler as written (with a parse report exactly at debug level) and posted with its event by the corrected handler |
| FullOutput.AtLeast | dnstap_fluentd_full_output.go:75 | `log.GetLevel() >= threshold` on the logging library's order Panic < Fatal < Error < Warn < Info < Debug < Trace; its consequences are stated by FullOutputProperties.LevelThresholds |
| FullOutputProperties.LevelThresholds | dnstap_fluentd_full_output.go:75 | the debug threshold is met exactly at Debug and Trace; the warn threshold at every level except Panic, Fatal and Error |
| FullOutputProperties.ParseFailureDrops | dnstap_fluentd_full_output.go:74-79 | an unparseable payload posts nothing and reports one parse error exactly when the level is Debug or Trace, nothing otherwise |
| FullOutputProperties.PostedExactly | dnstap_fluentd_full_output.go:132-136 | the handler posts exactly when the payload parses with a question, always under the configured tag, and reports one publish failure exactly when the post fails and the level reaches Warn |
| FullOutput.PutRoleFields | dnstap_fluentd_full_output.go:81-106 | the fields written by the class switch, one assignment at a time, are exactly the role fields of the record's class |
| FullOutput.PutCommonFields | dnstap_fluentd_full_output.go:107-121 | the fifteen header and question assignments add exactly the common fields to the event |
| FullOutput.PutLabelFields | dnstap_fluentd_full_output.go:123-131 | the label loop, in any iteration order of the table, adds exactly the four label fields to the event |
| FullOutput.BuildEvent | dnstap_fluentd_full_output.go:81-131 | the event built step by step is the specified event of the record |
| FullOutput.HandleSpec | dnstap_fluentd_full_output.go:65-137 | the outcome of one call: dropped with the parse reports when the payload does not parse, a panic on an empty question section, otherwise one post of the record's event under the tag with the publish reports; its consequences are stated by the lemmas of FullOutputProperties |
| FullOutput.Handle | dnstap_fluentd_full_output.go:65-137 | one call of the handler has exactly the outcome of the specification (drop with reports, panic on an empty question section, or one post with reports) whatever the iteration order |
| FullOutput.NamesDistinct | dnstap_fluentd_full_output.go:42-47 | distinct depths of the label table name distinct fields |
| FullOutput.LabelsWrittenEntries | dnstap_fluentd_full_output.go:125-131 | after any sequence of visits, each visited depth's field holds that depth's value |
| FullOutput.LabelsWrittenKeys | dnstap_fluentd_full_output.go:125-131 | after any sequence of visits, every written key is the field of a visited depth |
| FullOutput.OrderCoversNames | dnstap_fluentd_full_output.go:125 | an iteration order visits only depths of the table, and every depth of the table |
| FullOutput.LabelsWrittenByName | dnstap_fluentd_full_output.go:125-131 | after any iteration order, every field of the table holds its depth's value |
| FullOutput.LabelsWrittenOnlyNames | dnstap_fluentd_full_output.go:125-131 | after any iteration order, only the four label keys are written |
| FullOutput.LabelsAnyOrder | dnstap_fluentd_full_output.go:125-131 | every iteration order writes the same four entries, `tld` to `4ld`, each once with its depth's value |
| Labels.Split | dnstap_fluentd_full_output.go:123 | the pieces are never fewer than one and never contain a dot |
| Labels.Join | dnstap_fluentd_full_output.go:127 | `strings.Join` with ".": the pieces in order with one dot between neighbours; stated by Labels.SplitJoin and Labels.JoinAppend |
| Labels.FieldOfLabels | dnstap_fluentd_full_output.go:126-130 | the value of one depth from the split labels: the labels from len-depth to before the last one, joined, or the whole name when there are fewer than depth labels; stated by Labels.LabelFieldLabels |
| Labels.LabelField | dnstap_fluentd_full_output.go:123-130 | the label field of one depth of a name, on the name's split labels; stated by Labels.LabelFieldLabels and the lemmas after it |
| Labels.JoinSplit | dnstap_fluentd_full_output.go:123 | joining the split labels gives back the name |
| Labels.SplitJoin | dnstap_fluentd_full_output.go:127 | joining dot-free labels and splitting again gives back the labels |
| Labels.JoinAppend | dnstap_fluentd_full_output.go:127 | joining a concatenation puts exactly one dot between the two joins |
| Labels.LabelFieldLabels | dnstap_fluentd_full_output.go:126-130 | when the name has at least d labels, the field of depth d consists of exactly the d-1 labels before the last one; otherwise it is the whole name |
| Labels.LabelFieldIsSuffix | dnstap_fluentd_full_output.go:126-127 | the field, a dot and the last label end the name |
| Labels.LastLabelEmpty | dnstap_fluentd_full_output.go:123 | a name ending in "." has an empty last label |
| Labels.LabelFieldOfFqdn | dnstap_fluentd_full_output.go:126-127 | for a fully qualified name the field followed by "." ends the name |
| Labels.LabelFieldNested | dnstap_fluentd_full_output.go:125-131 | a deeper field ends with a dot and every shallower field |
| Labels.LabelFieldExampleFqdn | dnstap_fluentd_full_output.go:123-131 | "www.example.com." gives com, example.com, www.example.com and the whole name at depths 2 to 5 |
| Labels.LabelFieldExampleRelative | dnstap_fluentd_full_output.go:123-131 | "www.example.com" gives example and www.example at depths 2 and 3, and the whole name at depths 4 and 5 |
| FullOutputProperties.KeyNamesDistinct | dnstap_fluentd_full_output.go:86-129 | distinct keys are posted under distinct field names |
| FullOutputProperties.EventKeys | dnstap_fluentd_full_output.go:81-131 | a posted event has exactly the keys of its class, the fifteen common keys and the four label keys |
| FullOutputProperties.EventRoleSeparation | dnstap_fluentd_full_output.go:82-106 | query events carry no response address, port or zone; response events carry no query address or port; other records carry no timestamp or identity |
| FullOutputProperties.EventRoleValues | dnstap_fluentd_full_output.go:82-106 | the event carries every field of its class unchanged |
| FullOutputProperties.EventCommonValues | dnstap_fluentd_full_output.go:107-121 | the event carries every common field unchanged |
| FullOutputProperties.EventQuestionFields | dnstap_fluentd_full_output.go:112-115 | qname, qtype, qclass and rcode come from the first question and the header |
| FullOutputProperties.EventFlags | dnstap_fluentd_full_output.go:116-121 | aa, tc, rd, ra, ad and cd are the header's flags |
| FullOutputProperties.EventLabelValue | dnstap_fluentd_full_output.go:123-131 | at each depth of the table the event carries the label field of the first question's name |
| FullOutputProperties.EventAddressAnonymized | dnstap_fluentd_full_output.go:88-102 | a query event's address and a response event's address are the record's address with the host bits cleared under the configured prefix lengths |
| FullOutputProperties.ExampleAddress | dnstap_fluentd_full_output.go:86-93 | a client query from 192.0.2.55 port 53 under a /24 mask carries 192.0.2.0 and port 53 |
| FullOutputProperties.ExampleEvent | dnstap_fluentd_full_output.go:82-131 | that query with the name www.example.com. also carries tld "com" and 2ld "example.com", and has no response address |
| FullOutputProperties.ExampleClientQuery | dnstap_fluentd_full_output.go:65-136 | a record whose query message parses with a question is posted under the configured tag with that event |

## Left out

- DNS wire parsing (`dns.Msg.Unpack`) is not modelled. It is the parameter `unpack`, and the parsed message is reduced to the first question, the response code and the six header flags.
- Fluentd's `Post` is the boolean `postFails`. Network I/O and the client's own buffering are not modelled.
- The error channel becomes the `reports` sequence of the outcome. The wrapped error message texts are not modelled.
- The log level is a parameter. The global logger is not modelled.
- The timestamp is kept as raw seconds and nanoseconds. Not modelled: RFC 3339 formatting (the clock library), and the cast of the unsigned seconds to a signed 64-bit value.
- Addresses are kept as masked bytes, with None for the library's nil address. The dotted or colon text of `IP.String` is not modelled.
- `IP.Mask` is modelled only for what the handler can give it: a 4-byte or 16-byte mask, or nil. The library's special cases for IPv4 addresses embedded in 16 bytes never arise with those masks.
- Enum names and the DNS class, type and rcode name tables are the functions of `Tables`. Their contents belong to other libraries.
- These are not part of this model:
  - the shared Fluentd output loop `NewDnstapFluentdOutput`, which `NewDnstapFluentFullOutput` hands the handler to, and its error wrapping;
  - the empty `setup`;
  - the configuration getters.
- A nil dnstap `Message` is not modelled: every record carries one. Only the query and response DNS payloads are `Option` values (`None` when absent); the identity, version, extra, the two addresses and the query zone are plain byte sequences, on which an absent value reads as empty, as the generated getters return nil.
- Go's random iteration order over the `names` table is the parameter `order`, which may be any permutation of the table's keys.
- An empty question section makes the source index out of range after the role fields are built. It is modelled as the outcome `Panicked`, without the partial map.
- A name without the trailing root dot has its last label taken as the root: "www.example.com" gives "example" and "www.example" at depths 2 and 3 and the whole name at depths 4 and 5 (`Labels.LabelFieldExampleRelative`), while the fully qualified "www.example.com." gives com / example.com / www.example.com (`Labels.LabelFieldExampleFqdn`). The end-to-end example uses the fully qualified name, which is the form the DNS parser returns.
- FullOutput.Handle: parses the response message when a record carries no query message. As written, line 69 always parses the query getter, so such a record is dropped (`FullOutput.HandleSpecAsWritten`, `FullOutputProperties.AsWrittenDropsResponseOnlyRecord`; see "## Findings"). `Handle` and `HandleSpec` model the corrected choice.
- `Dnstap.MessageType` can hold `Other(c)` with c from 1 to 12, which stands for no real record (`ValidType` excludes it). The handler's contracts hold for such a value as well, treating it as a type outside the switch; the code facts of `Dnstap.Classify` and `Dnstap.ClassifyByCode` are stated for well-formed types.
- FullOutputProperties.KeyNamesDistinct: states only that field names are distinct. It does not state that no field name is a prefix of another.

## Findings

| source | as written | input that shows it | evidently intended | confidence | as-written member | corrected member |
|---|---|---|---|---|---|---|
| dnstap_fluentd_full_output.go:69 | `msg.GetQueryMessage != nil` compares the method value with nil. That is always true, so the query payload is always parsed. | a CLIENT_RESPONSE record that carries only `response_message`: the empty query payload fails to parse and the record is dropped | parse the response message when the query message is absent | not executed | FullOutputProperties.AsWrittenDropsResponseOnlyRecord | FullOutput.SelectPayload |
