/** Value types shared by the relay, temperature and humidity controllers. */
module Common {

  datatype Option<T> = None | Some(value: T)

  /** One successful sensor sample: the temperature in degrees Fahrenheit and the relative humidity. */
  datatype Sample = Sample(tempF: real, humidity: real)

  /**
   * The outcome of one call to the sensor's read_temperature_humidity: a sample,
   * or None when the sensor is disconnected or the read failed (all values are
   * then None together).
   */
  type Reading = Option<Sample>

  /** One loop iteration's input: what the sensor returned and the wall-clock time it was taken at. */
  datatype Poll = Poll(reading: Reading, at: real)

  function TempOf(r: Reading): (t: Option<real>)
  {
    if r.Some? then Some(r.value.tempF) else None
  }

  function HumidityOf(r: Reading): (h: Option<real>)
  {
    if r.Some? then Some(r.value.humidity) else None
  }

  /**
   * A keyword argument that may be omitted, or a partial settings update: a
   * given value replaces the current (or default) one, an absent one keeps it.
   */
  function Override<T>(update: Option<T>, current: T): (v: T)
  {
    if update.Some? then update.value else current
  }
}
