/**
 * The booking constants. Their defining files are not part of this model, so
 * they are gathered in a configuration value; `TestConfig` holds the values
 * the router's tests use (30-minute slots, business hours 09:00-18:00 UTC,
 * a price of 1500 cents in `eur`, card payments only).
 */
module Constants {

  /** Milliseconds in a UTC day. */
  const DayMs: int := 86_400_000

  /** Milliseconds in an hour and in a minute. */
  const HourMs: int := 3_600_000
  const MinuteMs: int := 60_000

  datatype Config = Config(
    slotMs: int,           // BOOKING_TIME_MS
    businessStartMs: int,  // BUSINESS_START_MS, offset from the start of a UTC day
    businessEndMs: int,    // BUSINESS_END_MS, offset from the start of a UTC day
    priceInCents: int,     // BOOKING_PRICE_IN_CENTS
    currency: string,      // PAYMENT_CURRENCY
    paymentTypes: seq<string>)  // PAYMENT_TYPES

  /** Positive slots and a business window inside one day. */
  predicate ValidConfig(c: Config) {
    c.slotMs > 0 && 0 <= c.businessStartMs <= c.businessEndMs <= DayMs
  }

  const TestConfig: Config :=
    Config(30 * MinuteMs, 9 * HourMs, 18 * HourMs, 1500, "eur", ["card"])
}
