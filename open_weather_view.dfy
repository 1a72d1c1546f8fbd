/**
  The state held by the 32x8 OpenWeather view and its change-detecting
  setters. Every real change of the view duration or of the weather-info
  bitmask stops the view-duration timer, so that the time each weather
  info is shown is derived again; writing an unchanged value does nothing.
 */
module OpenWeatherView {
  import opened ArduinoString
  import opened Timer

  /** A measured value (a float in the firmware); only compared for equality. */
  type Reading = int

  /** The current weather, as far as the view compares it. */
  datatype WeatherInfoCurrent = WeatherInfoCurrent(
    iconId: string,
    temperature: Reading,
    humidity: Reading,
    uvIndex: Reading,
    windSpeed: Reading)

  /** The five fields whose change makes the view take a new record. */
  predicate Differs(a: WeatherInfoCurrent, b: WeatherInfoCurrent) {
    || a.iconId != b.iconId
    || a.temperature != b.temperature
    || a.humidity != b.humidity
    || a.uvIndex != b.uvIndex
    || a.windSpeed != b.windSpeed
  }

  /** The view never shows a forecast. */
  const WEATHER_FORECAST_SUPPORTED: bool := false

  const DEFAULT_UNITS: string := "metric"

  /** All fields of the view except its timer. */
  datatype ViewState = ViewState(
    viewDuration: uint32,
    units: string,
    weatherInfo: uint8,
    weatherInfoId: uint8,
    weatherInfoCurrent: WeatherInfoCurrent,
    isWeatherInfoUpdated: bool)

  class OpenWeatherView32x8 {
    const viewDurationTimer: SimpleTimer
    var viewDuration: uint32
    var units: string
    /** One bit per weather info to show. */
    var weatherInfo: uint8
    /** The cursor: how many bit shifts select the weather info shown now. */
    var weatherInfoId: uint8
    var weatherInfoCurrent: WeatherInfoCurrent
    var isWeatherInfoUpdated: bool

    function State(): (state: ViewState)
      reads this
    {
      ViewState(viewDuration, units, weatherInfo, weatherInfoId, weatherInfoCurrent, isWeatherInfoUpdated)
    }

    /** `blank` is the value-initialised weather record of the firmware. */
    constructor (blank: WeatherInfoCurrent)
      ensures fresh(viewDurationTimer) && !viewDurationTimer.running
      ensures State() == ViewState(0, DEFAULT_UNITS, 0, 0, blank, false)
    {
      viewDurationTimer := new SimpleTimer();
      viewDuration := 0;
      units := DEFAULT_UNITS;
      weatherInfo := 0;
      weatherInfoId := 0;
      weatherInfoCurrent := blank;
      isWeatherInfoUpdated := false;
    }

    /** Stores a new view duration and stops the timer; an equal duration is a no-op. */
    method SetViewDuration(duration: uint32)
      modifies this, viewDurationTimer
      ensures State() == old(State()).(viewDuration := duration)
      ensures viewDurationTimer.State() ==
        if duration != old(viewDuration) then old(viewDurationTimer.State()).(running := false)
        else old(viewDurationTimer.State())
    {
      if viewDuration != duration {
        viewDuration := duration;

        /* Force recalculation of the duration of every weather info. */
        viewDurationTimer.Stop();
      }
    }

    method SetUnits(newUnits: string)
      modifies this
      ensures State() == old(State()).(units := newUnits)
    {
      units := newUnits;
    }

    /** The weather-info bitmask last stored. */
    function GetWeatherInfo(): (mask: uint8)
      reads this
      ensures mask == State().weatherInfo
    {
      weatherInfo
    }

    /** Stores a new bitmask, moves the cursor back to the first weather info
        and stops the timer; an equal bitmask is a no-op. */
    method SetWeatherInfo(mask: uint8)
      modifies this, viewDurationTimer
      ensures GetWeatherInfo() == mask
      ensures State() ==
        if mask != old(weatherInfo) then old(State()).(weatherInfo := mask, weatherInfoId := 0)
        else old(State())
      ensures viewDurationTimer.State() ==
        if mask != old(weatherInfo) then old(viewDurationTimer.State()).(running := false)
        else old(viewDurationTimer.State())
    {
      if weatherInfo != mask {
        weatherInfo := mask;

        RestartWeatherInfo();

        /* Force recalculation of the duration of every weather info. */
        viewDurationTimer.Stop();
      }
    }

    /** Moves the cursor back to the first weather info and stops the timer. */
    method RestartWeatherInfo()
      modifies this, viewDurationTimer
      ensures State() == old(State()).(weatherInfoId := 0)
      ensures viewDurationTimer.State() == old(viewDurationTimer.State()).(running := false)
    {
      weatherInfoId := 0;

      /* Force recalculation of the duration of every weather info. */
      viewDurationTimer.Stop();
    }

    /** Takes the record and marks the view updated when one of the compared
        fields differs; otherwise nothing changes. */
    method SetWeatherInfoCurrent(info: WeatherInfoCurrent)
      modifies this
      ensures State() ==
        if Differs(old(weatherInfoCurrent), info)
        then old(State()).(weatherInfoCurrent := info, isWeatherInfoUpdated := true)
        else old(State())
      ensures info == old(weatherInfoCurrent) ==> State() == old(State())
    {
      if Differs(weatherInfoCurrent, info) {
        weatherInfoCurrent := info;
        isWeatherInfoUpdated := true;
      }
    }

    /** Forecasts are not supported: the record is ignored, whatever it holds. */
    method SetWeatherInfoForecast<Forecast>(day: uint8, info: Forecast)
      ensures !WEATHER_FORECAST_SUPPORTED
      ensures unchanged(this, viewDurationTimer)
    {
    }
  }
}
