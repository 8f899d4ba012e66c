/**
 * The forecast response of src/app/page.tsx (`WeatherData`, `WeatherDetail`)
 * and the calendar-date key each sample is bucketed by.
 *
 * Temperatures, pressure, humidity and wind speed are opaque payload: the
 * page only passes them through. `dtTxt` is the API's display timestamp.
 */
module Weather {

  datatype Condition = Condition(id: int, description: string, icon: string)

  datatype Readings = Readings(
    temp: real, feelsLike: real, tempMin: real, tempMax: real,
    pressure: real, humidity: real,
    visibility: nat)  // metres

  datatype Wind = Wind(speed: real)

  /** One 3-hour forecast sample; `dt` is in epoch seconds. */
  datatype Sample = Sample(dt: int, main: Readings, weather: seq<Condition>, wind: Wind, dtTxt: string)

  datatype City = City(name: string, sunrise: int, sunset: int)

  datatype WeatherData = WeatherData(list: seq<Sample>, city: City)

  const SecondsPerDay: nat := 86400

  /**
   * The UTC calendar day of an epoch-seconds timestamp, as a day number since
   * 1970-01-01. Within the range of JavaScript dates it stands one-for-one for
   * the date part before `T` of `new Date(dt * 1000).toISOString()`.
   */
  function DateKey(dt: int): (day: int)
    ensures SecondsPerDay * day <= dt < SecondsPerDay * day + SecondsPerDay
  {
    dt / SecondsPerDay
  }

  /** A timestamp has key `day` exactly when it falls inside that UTC day. */
  lemma DateKeyIsUtcDay(dt: int, day: int)
    ensures DateKey(dt) == day <==> SecondsPerDay * day <= dt < SecondsPerDay * day + SecondsPerDay
  {
  }

  /** Later timestamps never have earlier date keys. */
  lemma DateKeyMonotone(dt1: int, dt2: int)
    requires dt1 <= dt2
    ensures DateKey(dt1) <= DateKey(dt2)
  {
  }
}
