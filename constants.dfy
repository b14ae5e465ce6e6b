/** The fixed values of the extension: nominal durations, the long-break
    threshold, storage keys, the default blocklist and the tag palette. */
module Constants {

  /** Nominal session lengths, in seconds. */
  const FocusDuration: nat := 25 * 60
  const ShortBreakDuration: nat := 5 * 60
  const LongBreakDuration: nat := 15 * 60

  /** A long break is due after this many focus sessions. */
  const LongBreakAfter: nat := 4

  const TasksKey: string := "tasks"
  const SessionsKey: string := "sessions"
  const TaskTimeEntriesKey: string := "taskTimeEntries"
  const DomainVisitsKey: string := "domainVisits"
  const SettingsKey: string := "settings"
  const TimerStateKey: string := "timerState"

  const DefaultBlockedDomains: seq<string> := ["x.com", "web.whatsapp.com", "mail.google.com"]

  const AlarmName: string := "pomofuoco-timer"

  const PastelColors: seq<string> := [
    "#FFB3BA", "#FFDFBA", "#FFFFBA", "#BAFFC9", "#BAE1FF",
    "#E8BAFF", "#FFB3E6", "#B3FFE6", "#FFE6B3", "#B3D9FF",
    "#D9B3FF", "#B3FFB3", "#FFB3B3", "#B3FFFF", "#FFD9B3",
    "#D9FFB3"
  ]
}
