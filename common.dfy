/** Shared vocabulary of the billing model: Java's nullable references,
    calendar dates and decimal money. */
module Common {

  /** A nullable Java reference: `None` is `null`. */
  datatype Option<+T> = None | Some(value: T)

  /** A nullable `java.lang.String`. */
  type JStr = Option<string>

  /** A `java.time.LocalDate`, as a count of days since an arbitrary epoch:
      `isBefore`/`isAfter` are `<`/`>` and `plusDays(n)` is `+ n`. */
  type Date = int

  /** A `java.math.BigDecimal` amount. Addition, subtraction and
      multiplication of BigDecimals are exact, so reals model them exactly. */
  type Money = real

  /** The text Java's string concatenation produces for a nullable string. */
  function Render(s: JStr): string
  {
    match s
    case None => "null"
    case Some(t) => t
  }

  /** `s != null && !s.isEmpty()` */
  predicate HasText(s: JStr)
  {
    s.Some? && s.value != ""
  }

  /** `date.plusDays(days)` */
  function PlusDays(date: Date, days: int): (r: Date)
    ensures days > 0 ==> date < r
  {
    date + days
  }
}
