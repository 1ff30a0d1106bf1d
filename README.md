# SMPP transceiver transport: inbound translation and bind prefix

This project models, in Dafny, the two pieces of logic that vumi's SMPP
transceiver transport (`vumi/transports/smpp/smpp_transport.py`) carries itself
rather than delegating to its protocol, processors and Redis helpers:

- **Inbound translation** (`SmppTransport.handle_raw_inbound_message`): the raw
  keyword arguments of a received short message become the platform's canonical
  message. `destination_addr`, `source_addr` and `short_message` are renamed to
  `to_addr`, `from_addr` and `content`; `message_type` defaults to `sms` and is
  copied into `transport_type`; the message id is a fresh identifier. A missing
  required argument is a failed dictionary lookup (`KeyError`), and then nothing
  is published. For USSD the intended behaviour is that the session indicator
  (`new` / `continue` / `close`) selects one of the three session events,
  `session_info` is copied into the transport metadata, and an unknown or
  missing indicator is a failed lookup (`KeyError`). As written, every USSD
  message that has the three required arguments instead raises `NameError`
  before the lookup (see "## Findings");
  `Translate` models the intended behaviour, `TranslateAsWritten` the code.
- **Bind prefix** (`SmppTransport.setup_transport`): the Redis key prefix that
  isolates independently configured binds (`RedisPrefix`), `split_bind_prefix` when set and
  non-empty, otherwise `<system_id>@<transport_name>`.

Files:

- `wrappers.dfy` — module `Wrappers`: `Option` and `Result`.
- `inbound_message.dfy` — module `InboundMessage`: keyword arguments as
  `map<string, Value>` with `Value = Null | Text(string)` (Python `None` or
  text), the canonical `Message` record, the `KeyError`/`NameError` outcomes,
  the USSD table `SessionEventOf` with its inverse `Indicator`, the translation
  `Translate`, the code as written (`TranslateAsWritten`) and lemmas.
- `bind_prefix.dfy` — module `BindPrefix`: `DefaultPrefix`, `RedisPrefix`, the
  inverse `SplitPrefix` (split at the first `@`) and lemmas about isolation.

Python semantics kept explicit: `kwargs.get(k, d)` yields a value stored under
`k` even when it is `None`, and `d` only when `k` is absent; `kwargs[k]` raises
`KeyError(k)` when `k` is absent; the required arguments are looked up in the
order destination, source, content, so the first missing one names the error;
`x or y` falls through on both `None` and the empty string.

`transport_type` is whatever `message_type` the caller supplies (even `None`),
not only `sms` / `ussd`; the model does the same. The values of `TransportUserMessage.SESSION_NEW`,
`SESSION_RESUME` and `SESSION_CLOSE` are not in this file; they are the three
constructors of `SessionEvent`.

## Model

| member | source | states |
|---|---|---|
| `InboundMessage.Translate` | vumi/transports/smpp/smpp_transport.py:69-90 | Succeeds exactly on accepted inputs (three required arguments present; for USSD a known indicator); a missing argument fails with `KeyError` naming the first missing one in source order; a missing or unknown USSD indicator fails with `KeyError` of that key or value; on success the id is the supplied one, the three fields are copied unchanged, `transport_type` is the supplied `message_type` or `sms`; non-USSD has no session event and empty metadata; USSD has the event whose indicator was supplied and metadata with exactly the key `session_info`, holding the supplied value or `None` |
| `InboundMessage.SessionEventOf` | vumi/transports/smpp/smpp_transport.py:83-87 | Defined exactly on `new`, `continue`, `close`, and each result maps back (via `Indicator`) to the indicator it came from |
| `InboundMessage.Indicator` | vumi/transports/smpp/smpp_transport.py:83-86 | Every session event has an indicator the table accepts |
| `InboundMessage.SessionEventTableBijective` | vumi/transports/smpp/smpp_transport.py:83-88 | `new`→New, `continue`→Resume, `close`→Close round-trips through `Indicator`, and no two indicators map to the same event |
| `InboundMessage.MessageIdIsFreshId` | vumi/transports/smpp/smpp_transport.py:74 | Any two published messages made with the same supplied id carry that id, whatever their other fields |
| `InboundMessage.FreshIdOnlyAffectsMessageId` | vumi/transports/smpp/smpp_transport.py:73-80 | Changing the supplied id changes neither success nor the error, and on success changes only `message_id` |
| `InboundMessage.DefaultIsSms` | vumi/transports/smpp/smpp_transport.py:72-82 | Without `message_type` and with the three required arguments, a message is published as `sms` with no session event |
| `InboundMessage.TranslateAsWritten` | vumi/transports/smpp/smpp_transport.py:73-88 | As written, non-USSD input and input missing a required argument translate as intended (the same result, including the `KeyError`); every USSD input fails, and with the three required arguments present it fails with `NameError("TransportUserMessage")` whatever its indicator, even a missing one |
| `InboundMessage.UssdNameErrorAsWritten` | vumi/transports/smpp/smpp_transport.py:83-87 | A well-formed USSD message with indicator `new` fails with `NameError` as written, while the intended translation publishes it with event New |
| `BindPrefix.DefaultPrefix` | vumi/transports/smpp/smpp_transport.py:43-44 | The default prefix is one character longer than its two parts and has `@` right after the system id |
| `BindPrefix.RedisPrefix` | vumi/transports/smpp/smpp_transport.py:43-45 | Never empty; a set, non-empty `split_bind_prefix` is used as is; when it is unset or empty the prefix is `system_id + "@" + transport_name` |
| `BindPrefix.SplitPrefix` | vumi/transports/smpp/smpp_transport.py:43-44 | Inverse of the default rule: a prefix containing `@` is the default prefix of its two parts, the first of which holds no `@` |
| `BindPrefix.SplitDefaultPrefix` | vumi/transports/smpp/smpp_transport.py:43-44 | Splitting a default prefix whose system id has no `@` gives back exactly the system id and transport name |
| `BindPrefix.DefaultPrefixInjective` | vumi/transports/smpp/smpp_transport.py:43-45 | Two binds using the default rule, with `@`-free system ids, share a prefix only when both system id and transport name agree |
| `BindPrefix.DistinctSystemIdsDistinctPrefixes` | vumi/transports/smpp/smpp_transport.py:43-45 | Two binds of one transport with different system ids and no explicit prefix get different prefixes |
| `BindPrefix.DefaultPrefixCollision` | vumi/transports/smpp/smpp_transport.py:43-44 | Across transports the default rule is not injective: system id `ab@c` on transport `d` and `ab` on `c@d` share a prefix |

## Findings

| source | as written | input that shows it | evidently intended | confidence | as-written member | corrected member |
|---|---|---|---|---|---|---|
| vumi/transports/smpp/smpp_transport.py:84-86 | The USSD table refers to `TransportUserMessage`, which the module never imports (imports are lines 3-17); the dictionary display is evaluated before the lookup, so every USSD message that has the three required arguments raises `NameError` | `message_type='ussd'`, `session_event='new'` with the three address/content arguments present | Map `new`/`continue`/`close` to SESSION_NEW/RESUME/CLOSE and publish | high (not executed) | `InboundMessage.TranslateAsWritten`, `InboundMessage.UssdNameErrorAsWritten` | `InboundMessage.Translate` |

## Left out

- Publishing: `publish_message(...).addErrback(log.err)` is message-bus I/O with an asynchronous result; the model yields the record that would be published, or the error that stops it.
- `uuid4().hex`: random id generation; the id is a parameter of `Translate`.
- Value types: keyword-argument values are text or `None`; byte strings, numbers and other Python objects (and a `TypeError` from an unhashable indicator) are not modelled.
- `setup_transport` beyond the prefix rule and `teardown_transport`: Redis connection management, processor instantiation from configuration, sequence generator construction and service start/stop are asynchronous lifecycle plumbing; how the Redis sub-manager applies the prefix to keys is not part of this model.
- `start_service` / `ReconnectingClientService`: the reconnection policy lives in a module that is not part of this model.
- `SmppTransceiverProtocol.onConnectionMade` and `SmppTransportClientFactory`: a one-line hook onto an unseen protocol class; the PDU codec, session state machine and `RedisSequence` allocator are not part of this model.
- The hangman demo tests: their game and worker implementation is not part of this model.
