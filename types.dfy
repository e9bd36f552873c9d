/** The record and settings shapes shared by the stores (src/types/index.ts and the
    record literals built in src/stores/sit.ts). JavaScript numbers are modelled as
    integers; the completion rate, the only fractional value, is a `real`. */
module Types {

  /** The user's preferences, as the settings store holds them. Times of day are the
      raw "HH:mm" strings; weekdays are 0..6 with 0 for Sunday. */
  datatype Settings = Settings(
    waterReminderEnabled: bool,
    waterIntervalMinutes: int,
    cupVolume: int,
    dailyTargetCups: int,
    sitReminderEnabled: bool,
    sitIntervalMinutes: int,
    workTimeEnabled: bool,
    workStartTime: string,
    workEndTime: string,
    workDays: seq<int>,
    dndEnabled: bool,
    dndStartTime: string,
    dndEndTime: string,
    autoStart: bool,
    minimizeToTray: bool,
    soundEnabled: bool)

  /** The factory defaults. */
  const DefaultSettings: Settings := Settings(
    waterReminderEnabled := true,
    waterIntervalMinutes := 45,
    cupVolume := 250,
    dailyTargetCups := 8,
    sitReminderEnabled := true,
    sitIntervalMinutes := 60,
    workTimeEnabled := true,
    workStartTime := "09:00",
    workEndTime := "18:00",
    workDays := [1, 2, 3, 4, 5],
    dndEnabled := false,
    dndStartTime := "22:00",
    dndEndTime := "08:00",
    autoStart := false,
    minimizeToTray := true,
    soundEnabled := true)

  /** One logged drink: `volume` is in millilitres. */
  datatype WaterRecord = WaterRecord(id: string, date: string, time: string, cups: int, volume: int)

  /** A day's drinking summary; `completionRate` is a percentage. */
  datatype DailyStats = DailyStats(
    date: string,
    totalCups: int,
    totalVolume: int,
    targetCups: int,
    targetVolume: int,
    completionRate: real)

  /** One sitting session: `sitDuration` is in minutes. */
  datatype SitRecord = SitRecord(
    id: string,
    date: string,
    time: string,
    sitDuration: int,
    restCompleted: bool,
    isAutoRecord: bool)

  /** A day's sitting summary. */
  datatype SitDailyStats = SitDailyStats(date: string, totalSitTime: int, restCount: int, avgSitDuration: int)
}
