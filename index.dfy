/** The page that owns the prayer settings and passes its setter to the
    settings panel as `onPrayerSettingsChange`. */
module Index {
  import opened SettingsPanel

  /** The page's initial prayer settings: fajr and isha on, the rest off. */
  const InitialPrayerSettings: PrayerSettings := PrayerSettings(true, false, false, false, true)

  class IndexPage {
    var prayerSettings: PrayerSettings

    constructor ()
      ensures prayerSettings == InitialPrayerSettings
    {
      prayerSettings := InitialPrayerSettings;
    }

    /** A switch of the settings panel: `handlePrayerToggle` builds one new
        record from the current settings and hands it to the page's setter,
        which replaces the settings with it. */
    method HandlePrayerToggle(p: Prayer)
      modifies this
      ensures prayerSettings == Toggle(old(prayerSettings), p)
      ensures Enabled(prayerSettings, p) == !Enabled(old(prayerSettings), p)
      ensures forall q :: q != p ==> Enabled(prayerSettings, q) == Enabled(old(prayerSettings), q)
    {
      var next := Toggle(prayerSettings, p);
      SetPrayerSettings(next);
    }

    /** `setPrayerSettings`, the panel's `onPrayerSettingsChange`. */
    method SetPrayerSettings(next: PrayerSettings)
      modifies this
      ensures prayerSettings == next
    {
      prayerSettings := next;
    }
  }
}
