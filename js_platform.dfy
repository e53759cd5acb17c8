/** The parts of the JavaScript runtime that the editor calls but whose
    behaviour depends on the engine, the clock or the time zone. They are
    parameters of the model: an `Env` value fixes one runtime. */
module JsPlatform {
  import opened JsonValue
  import Calendar

  type Month0 = m: int | 0 <= m < 12
  type DayOfMonth = d: int | 1 <= d <= 31 witness 1
  type Hour = h: int | 0 <= h < 24
  type Minute = m: int | 0 <= m < 60

  /** What the local-time getters of a valid `Date` return:
      `getFullYear`, `getMonth` (0-based), `getDate`, `getHours`, `getMinutes`. */
  datatype LocalTime = LocalTime(year: int, month0: Month0, day: DayOfMonth, hours: Hour, minutes: Minute)

  /** A local time that names a real calendar day. */
  predicate ValidLocal(t: LocalTime)
  {
    t.day <= Calendar.DaysInMonth(t.year, t.month0 + 1)
  }

  /** A `Date` object: either "Invalid Date" (its time value is NaN) or a valid instant. */
  datatype JsDate = InvalidDate | ValidDate(local: LocalTime)

  datatype Env = Env(
    /** `new Date(x)` for one argument, read through the local-time getters. */
    parseDate: J -> JsDate,
    /** `new Date(year, monthIndex, day, hours, minutes)`: the engine normalises
        out-of-range fields, so the result is always a valid instant. */
    makeDate: (int, int, int, int, int) -> LocalTime,
    /** `Number(s)` for a string. */
    parseNumber: string -> Num,
    /** `String(n)` for a number. */
    numberToString: Num -> string,
    /** `new Date().toISOString()` at the moment of the call. */
    nowIso: string,
    /** `Date.now()` at the moment of the call. */
    nowMillis: int)
}
