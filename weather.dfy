/** The internal weather record shared by the normaliser, the scorer and the ranker. */
module Weather {

  /**
   * One forecast sample in the service's own format: the calendar date
   * (YYYY-MM-DD) and time of day (HH:MM:SS) it is for, the temperature in
   * degrees Celsius, the main condition label ("Clear", "Rain", ...), the
   * probability of precipitation in [0, 1] and the wind speed in km/h.
   */
  datatype DailyWeather = DailyWeather(
    date: string,
    time: string,
    temp: real,
    condition: string,
    precipitationProb: real,
    windSpeed: real)
}
