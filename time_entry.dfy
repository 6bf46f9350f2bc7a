/**
 * One logged shift (ShiftTrack/Models/TimeEntry.swift).
 *
 * Instants are whole seconds on a single time line. The record is a value:
 * all three fields are immutable, so an entry never changes once built.
 */
module Entries {

  /** A point in time, in seconds. */
  type Instant = int

  /** Seconds in an hour, as the divisor of `hours`. */
  const SecondsPerHour: real := 3600.0

  /** One calendar day, in seconds (daylight-saving shifts are not modelled). */
  const SecondsPerDay: int := 86400

  /** A shift: an identifier (a UUID in the app) and its two ends. */
  datatype TimeEntry = TimeEntry(id: nat, startTime: Instant, endTime: Instant)

  /**
   * Builds an entry from its parts. Nothing relates start and end:
   * the only `end > start` check lives in a disabled Save button.
   */
  function NewEntry(id: nat, startTime: Instant, endTime: Instant): (e: TimeEntry)
    ensures e.id == id && e.startTime == startTime && e.endTime == endTime
  {
    TimeEntry(id, startTime, endTime)
  }

  /** Length of the shift in seconds; zero or negative when it does not end after it starts. */
  function Duration(e: TimeEntry): (d: int)
    ensures e.startTime + d == e.endTime
    ensures d > 0 <==> e.endTime > e.startTime
    ensures d == 0 <==> e.endTime == e.startTime
  {
    e.endTime - e.startTime
  }

  /** Length of the shift in hours. */
  function Hours(e: TimeEntry): (h: real)
    ensures h * SecondsPerHour == Duration(e) as real
    ensures h > 0.0 <==> e.endTime > e.startTime
    ensures h < 0.0 <==> e.endTime < e.startTime
  {
    Duration(e) as real / SecondsPerHour
  }
}
