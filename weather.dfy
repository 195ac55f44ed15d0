/** The hourly weather frame the models consume. Timestamps are whole
    hours counted from a fixed epoch; the calendar date of a row is its
    hour count divided by 24 and its hour of day the remainder. */
module Weather {

  const HoursPerDay: int := 24

  /** One row of the frame: timestamp, irradiance (W/m2), temperature (C)
      and precipitation (mm). */
  datatype HourRow = HourRow(time: int, irradiance: real, temperature: real, precipitation: real)

  /** A frame; `hasPrecipitation` is false when the precipitation column
      is missing, in which case the models read zero rain. */
  datatype Frame = Frame(rows: seq<HourRow>, hasPrecipitation: bool)

  /** The calendar day of a timestamp (pandas `.dt.date`). */
  function DayOf(time: int): int
  {
    time / HoursPerDay
  }

  /** The hour of day of a timestamp (pandas `.dt.hour`). */
  function HourOf(time: int): (h: int)
    ensures 0 <= h < HoursPerDay
  {
    time % HoursPerDay
  }

  /** The rain the models read for row i: the column value, or 0 when
      the column is missing. */
  function RainAt(f: Frame, i: nat): real
    requires i < |f.rows|
  {
    if f.hasPrecipitation then f.rows[i].precipitation else 0.0
  }
}
