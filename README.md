# Factory clock, notification channels, money strings and tools

A Dafny model of the pure value logic of a small manufacturing-execution
backend: clients place orders for work pieces, orders are announced on
notification channels, and a production resolver is meant to plan the work on
a factory clock of days and time slots. The clock type exists, but no code uses
it yet. The modelled parts:

- **FactoryClock** (`factory_time.dfy`). `FactoryTime` is a day and a slot,
  both `u32`, with twelve slots per day and delivery in slot 9. It supports
  `from_due_time`, the refusing subtraction `checked_sub`, and `+` with one
  carry. The Rust `FactoryTime::new` is the datatype constructor `New`.
  Overflow and underflow of `u32` panic in the source. The model returns that
  panic as an explicit outcome, `Eval.Panic`.
- **Channels** (`channels.dfy`). `NotificationChannel`, its two wire names
  and `ALL_STR`, its display, and its decoding from a string. Decoding is
  total: every unrecognised name becomes `Unknown`.
- **Orders** (`orders.dfy`). `parse_money_string` keeps the ASCII digits of
  the input and parses them as an `i64`. Rust's `str::parse::<i64>` is
  modelled in full: sign, empty input, invalid digit and overflow in both
  directions. The file also holds the display names of `WorkPieces`.
- **Bom** (`bom.dfy`). The `Tools` enum and its exact-match decoding from a
  string. The `Transformation` and `Recipe` records, as plain data.
- `rust_ints.dfy` holds the Rust integer widths as newtypes. `wrappers.dfy`
  holds `Option` and `Result`.

The lemmas state the laws that relate these operations:

- `checked_sub` and `+` both preserve the linear measure `day * 12 + slot`.
- For a time whose slot is at most 12, adding back what was subtracted
  restores the time. The one exception is when the subtraction borrowed
  from slot 0: the sum is then slot 12 of the previous day, which is the
  same instant.
- Channel names and tool names round-trip.
- The money parser ignores every non-digit character.
- The money parser fails exactly when the input has no digit or when the
  value exceeds `i64::MAX`.

The reverse round trip of the channel codec holds for the two names in
`ALL_STR` and also for `"unknown"`. That string decodes to `Unknown`, and
`Unknown` displays as `"unknown"`.

## Model

| member | source | states |
|---|---|---|
| `FactoryClock.FromDueTime` | core/production-resolver/src/resolver/time.rs:14-18 | The due time is the given day at delivery slot 9. That slot lies within the day, so its measure is `day * 12 + 9`. |
| `FactoryClock.CheckedSub` | core/production-resolver/src/resolver/time.rs:20-40 | Returns `None` exactly when the day difference underflows, or when a borrow is needed and the days differ by at most one. Panics exactly when a needed borrow's `slot + 12 - rhs.slot` leaves `u32`. Any `Some` result has measure `m(self) - m(rhs)`. |
| `FactoryClock.CheckedSubComponentwise` | core/production-resolver/src/resolver/time.rs:23-29 | When no borrow is needed, the result is the fieldwise difference. |
| `FactoryClock.CheckedSubBorrow` | core/production-resolver/src/resolver/time.rs:28-37 | With a borrow, a day difference of at most 1 gives `None`. With a larger difference, when `slot + 12 - rhs.slot` stays in `u32`, the result is `(dayDiff - 1, slot + 12 - rhs.slot)`. |
| `FactoryClock.CheckedSubRefusesOneDayBorrow` | core/production-resolver/src/resolver/time.rs:31-33 | Day 1 slot 0 minus day 0 slot 5 is refused, although the difference of 7 slots is representable as day 0 slot 7. |
| `FactoryClock.CheckedSubWithinDay` | core/production-resolver/src/resolver/time.rs:28-37 | Operands with slot at most 12 never cause a panic, and any result also has slot at most 12. |
| `FactoryClock.Add` | core/production-resolver/src/resolver/time.rs:46-57 | Panics exactly when a `u32` sum overflows. Otherwise the measure is additive. Operands with slot at most 12 give a result with slot at most 12. |
| `FactoryClock.AddCarriesOnce` | core/production-resolver/src/resolver/time.rs:47-56 | A slot sum above 12 carries exactly one day. Any other slot sum is kept as it is. |
| `FactoryClock.AddKeepsSlotTwelve` | core/production-resolver/src/resolver/time.rs:51-54 | 6 slots + 6 slots is slot 12 of the same day, because the carry test is strict. |
| `FactoryClock.AddCommutes` | core/production-resolver/src/resolver/time.rs:46-57 | `a + b == b + a`, panics included. |
| `FactoryClock.AddUndoesCheckedSub` | core/production-resolver/src/resolver/time.rs:20-57 | For a time `a` whose slot is at most 12, `(a - b) + b` gives back `a`, except after a borrow from slot 0, where it gives `(a.day - 1, 12)`. The measure is restored in both cases. |
| `Channels.ChannelName` | db-api/src/lib.rs:22-31 | A channel's name is in `ALL_STR` exactly when the channel is known. `Unknown` displays as "unknown". |
| `Channels.ChannelFromStr` | db-api/src/lib.rs:33-42 | Gives `NewOrder` exactly for "new_order" and `NewBomEntry` exactly for "new_bom_entry". Every other string gives `Unknown`. |
| `Channels.ChannelNameRoundTrip` | db-api/src/lib.rs:22-42 | Decoding a channel's displayed name gives back the channel, for all three variants. |
| `Channels.ChannelFromStrRoundTrip` | db-api/src/lib.rs:22-42 | Displaying a decoded string gives back the string exactly when it is in `ALL_STR` or is "unknown". |
| `Channels.AllStrDistinctKnown` | db-api/src/lib.rs:16-19 | `ALL_STR` is two distinct names, "new_order" then "new_bom_entry", and neither decodes to `Unknown`. |
| `Orders.WorkPieceName` | db-api/src/orders.rs:13-22 | Every piece displays as one of exactly "P5", "P6", "P7" and "P9". |
| `Orders.WorkPieceNameInjective` | db-api/src/orders.rs:13-22 | Distinct pieces have distinct display names. |
| `Orders.WorkPieceNamesCovered` | db-api/src/orders.rs:13-22 | Each of "P5", "P6", "P7" and "P9" is some piece's display name. With injectivity, display is a bijection onto these four names. |
| `Orders.ParseI64` | db-api/src/orders.rs:190 | Rust's `parse::<i64>` gives the `Empty` error exactly for the empty string. |
| `Orders.AccumulatePosDigits` | db-api/src/orders.rs:190 | On an all-digit string, the checked digit loop returns the decimal value shifted past the accumulator. It overflows exactly when that value exceeds `i64::MAX`. |
| `Orders.ParseI64Digits` | db-api/src/orders.rs:189-190 | A non-empty all-digit string parses to its decimal value, or gives `PosOverflow` when that value exceeds `i64::MAX`. |
| `Orders.AsciiDigits` | db-api/src/orders.rs:186-189 | The filtered string is all digits and no longer than the input. It is empty exactly when the input has no ASCII digit. |
| `Orders.AsciiDigitsCounts` | db-api/src/orders.rs:188 | Every ASCII digit is kept as often as it occurs, and no other character is kept. |
| `Orders.AsciiDigitsAppend` | db-api/src/orders.rs:186-189 | The filter keeps order: filtering `s + t` is filtering `s`, then filtering `t`. |
| `Orders.ParseMoneyString` | db-api/src/orders.rs:185-191 | `Ok(v)` has `v >= 0` and `v` equal to the decimal value of the input's digits. Gives `Empty` exactly when the input has no digit. Gives `PosOverflow` exactly when that value exceeds `i64::MAX`. No other error occurs. |
| `Orders.ParseMoneyValue` | db-api/src/orders.rs:185-191 | When the input's digits fit in an `i64`, the parse succeeds with their decimal value. |
| `Orders.NonDigitInsensitive` | db-api/src/orders.rs:185-191 | Inserting or removing a non-digit character anywhere leaves the result unchanged. |
| `Orders.MinusSignIgnored` | db-api/src/orders.rs:188 | "-5" parses as 5, although `parse::<i64>` alone gives -5. |
| `Orders.MoneyExamples` | db-api/src/orders.rs:211-216 | "$123.45" and "123.45€" both give `Ok(12345)`. |
| `Bom.ToolDebugName` | db-api/src/bom.rs:3-12 | A tool's variant name is one of the six tool names exactly when the tool is not `INVALID`. |
| `Bom.ToolFromString` | db-api/src/bom.rs:14-26 | Gives a tool other than `INVALID` exactly for the six names. Such a name is "T" followed by a digit from 1 to 6, and it gives the tool whose variant name it is. |
| `Bom.ToolNameRoundTrip` | db-api/src/bom.rs:3-26 | Decoding a tool's variant name gives back the tool, `INVALID` included. |
| `Bom.ToolFromStringInjective` | db-api/src/bom.rs:16-23 | A string that decodes to a real tool is that tool's name. So distinct strings decode to distinct real tools. |
| `Bom.SixToolNames` | db-api/src/bom.rs:16-23 | Exactly six strings avoid `INVALID`. |
| `Bom.ToolMatchingIsExact` | db-api/src/bom.rs:16-23 | "t1", " T1", "T1 " and "T7" all give `INVALID`. |

## Left out

- Recipe resolution, path selection, BOM numbering and the resolution event loop are not modelled. `get_piece_recipe` (db-api/src/bom.rs:40-52) is a `todo!` stub. `generate_bom_entry` only fetches an order. The production resolver's main loop only prints notifications, and it listens on `db_api::ORDER_NOTIFY_CHANNEL`, which the library does not define.
- The database functions of db-api/src/orders.rs are not modelled: `place_client_order`, `place_new_order`, `tx_get_client_id`, `tx_get_piece_id`, `get_order` and `run_migrations`. They are SQL queries, transactions and `NOTIFY` over an async connection pool. The records that feed them are left out for the same reason: `Order`, `Client`, `ClientOrder` and `PgOrder`.
- The UDP order listener is not modelled. It is socket I/O and XML deserialisation through an external library.
- The production line configuration (`LineConfig`) is not modelled. It is a constant default with no behaviour, and it names a type `db_api::Tool` that does not exist.
- `PgMoney` is a foreign database type. A transformation's `cost` is modelled as its `i64` count of cents.
- Serde derives are not modelled, so neither is the deserialisation of `WorkPieces`. Tracing and logging are not modelled either.
- FactoryClock.CheckedSub and FactoryClock.Add model a debug build, where `u32` overflow panics. A release build would wrap around instead, and that is not modelled.
