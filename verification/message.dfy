/** The record a sensor sends to its drone, one per newline-terminated JSON line. */
module Message {

  /** Temperature in degrees Celsius, humidity in percent, timestamp an ISO-8601 UTC
      string kept opaque. */
  datatype Reading = Reading(sensorId: string, temperature: real, humidity: real, timestamp: string)
}
