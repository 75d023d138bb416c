/**
 * One recorded drink (Model/DrinkLog.swift).
 *
 * A `DrinkLog` is an immutable value: its date and amount are `let`
 * constants in the source, and its identifier, though declared `var`, is
 * never reassigned after the record is built. A Dafny datatype has no way
 * to change a field in place, which is exactly that guarantee.
 */
module DrinkLogs {

  /** Number of distinct UUID values: a UUID is 128 bits. */
  const UUID_COUNT: int := 0x1_0000_0000_0000_0000_0000_0000_0000_0000

  /** Swift's `Int` on the 64-bit platforms the app runs on. */
  const INT64_MIN: int := -0x8000_0000_0000_0000
  const INT64_MAX: int := 0x7fff_ffff_ffff_ffff

  newtype Uuid = x: int | 0 <= x < UUID_COUNT

  newtype Int64 = x: int | INT64_MIN <= x <= INT64_MAX

  /**
   * A point in time. Foundation's `Date` wraps a floating-point interval;
   * `At` is a finite instant counted in integer ticks, and `NonFinite`
   * stands for a `Date` whose interval is infinite or NaN, which the JSON
   * encoder refuses to write.
   */
  datatype Date = At(ticks: int) | NonFinite

  /** One drink: a fresh identifier, when it happened, and how many millilitres. */
  datatype DrinkLog = DrinkLog(id: Uuid, date: Date, amount: Int64)

  /** `id` occurs nowhere in `logs`. */
  predicate IdFresh(id: Uuid, logs: seq<DrinkLog>) {
    forall i :: 0 <= i < |logs| ==> logs[i].id != id
  }

  /** No two records of `logs` share an identifier. */
  predicate DistinctIds(logs: seq<DrinkLog>) {
    forall i, j :: 0 <= i < j < |logs| ==> logs[i].id != logs[j].id
  }

  /**
   * A record built with a fresh identifier keeps the identifiers of a list
   * pairwise distinct when it is put in front of that list.
   */
  lemma PrependFreshKeepsDistinct(log: DrinkLog, logs: seq<DrinkLog>)
    requires DistinctIds(logs) && IdFresh(log.id, logs)
    ensures DistinctIds([log] + logs)
  {
  }
}
