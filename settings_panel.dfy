/** The prayer reminder switches of the settings panel: a record of five
    enable flags and the toggle that hands the parent a copy of it with one
    flag negated. */
module SettingsPanel {

  /** The five daily prayers, in the panel's display order. */
  datatype Prayer = Fajr | Dhuhr | Asr | Maghrib | Isha

  /** The `prayerSettings` prop: one enable flag per prayer. */
  datatype PrayerSettings = PrayerSettings(fajr: bool, dhuhr: bool, asr: bool, maghrib: bool, isha: bool)

  /** `prayerSettings[prayer]` for a prayer's key. */
  function Enabled(s: PrayerSettings, p: Prayer): bool {
    match p
    case Fajr => s.fajr
    case Dhuhr => s.dhuhr
    case Asr => s.asr
    case Maghrib => s.maghrib
    case Isha => s.isha
  }

  /** The record that `handlePrayerToggle` hands to `onPrayerSettingsChange`:
      a fresh copy of `s` whose flag for `p` is negated and whose other four
      flags are those of `s`. */
  function Toggle(s: PrayerSettings, p: Prayer): (r: PrayerSettings)
    ensures Enabled(r, p) == !Enabled(s, p)
    ensures forall q :: q != p ==> Enabled(r, q) == Enabled(s, q)
  {
    match p
    case Fajr => s.(fajr := !s.fajr)
    case Dhuhr => s.(dhuhr := !s.dhuhr)
    case Asr => s.(asr := !s.asr)
    case Maghrib => s.(maghrib := !s.maghrib)
    case Isha => s.(isha := !s.isha)
  }

  /** Two records that agree on every prayer's flag are the same record. */
  lemma SettingsExtensional(s: PrayerSettings, t: PrayerSettings)
    requires forall q :: Enabled(s, q) == Enabled(t, q)
    ensures s == t
  {
    assert Enabled(s, Fajr) == Enabled(t, Fajr);
    assert Enabled(s, Dhuhr) == Enabled(t, Dhuhr);
    assert Enabled(s, Asr) == Enabled(t, Asr);
    assert Enabled(s, Maghrib) == Enabled(t, Maghrib);
    assert Enabled(s, Isha) == Enabled(t, Isha);
  }

  /** Toggling the same prayer twice gives back the original record. */
  lemma ToggleTwice(s: PrayerSettings, p: Prayer)
    ensures Toggle(Toggle(s, p), p) == s
  {
    SettingsExtensional(Toggle(Toggle(s, p), p), s);
  }

  /** Toggles of two prayers commute. */
  lemma ToggleCommute(s: PrayerSettings, p: Prayer, q: Prayer)
    ensures Toggle(Toggle(s, p), q) == Toggle(Toggle(s, q), p)
  {
    SettingsExtensional(Toggle(Toggle(s, p), q), Toggle(Toggle(s, q), p));
  }

  /** The key a prayer's switch passes to `handlePrayerToggle`. */
  function Key(p: Prayer): string {
    match p
    case Fajr => "fajr"
    case Dhuhr => "dhuhr"
    case Asr => "asr"
    case Maghrib => "maghrib"
    case Isha => "isha"
  }

  /** The prayers of the switch list, in display order. */
  const Prayers: seq<Prayer> := [Fajr, Dhuhr, Asr, Maghrib, Isha]

  /** The keys of the switch list, in display order. */
  const PrayerKeys: seq<string> := [Key(Fajr), Key(Dhuhr), Key(Asr), Key(Maghrib), Key(Isha)]

  /** Every switch of the list passes its own prayer's key, every prayer has
      a switch, and no two prayers share a key. */
  lemma SwitchKeys()
    ensures |Prayers| == |PrayerKeys| == 5
    ensures forall i :: 0 <= i < 5 ==> Key(Prayers[i]) == PrayerKeys[i]
    ensures forall p :: p in Prayers
    ensures forall p, q :: Key(p) == Key(q) ==> p == q
  {
    forall p ensures p in Prayers {
      match p
      case Fajr => assert Prayers[0] == p;
      case Dhuhr => assert Prayers[1] == p;
      case Asr => assert Prayers[2] == p;
      case Maghrib => assert Prayers[3] == p;
      case Isha => assert Prayers[4] == p;
    }
    forall p, q | Key(p) == Key(q) ensures p == q {
      assert Key(p)[0] == Key(q)[0];
      assert |Key(p)| == |Key(q)|;
    }
  }

  /** The five keys differ pairwise: each is named by its length, or for
      fajr and isha by the first letter. This restates the injectivity in
      `SwitchKeys` as facts about the literals, which keeps `AsObject`'s
      proof cheap. */
  lemma KeysDistinct()
    ensures |Key(Fajr)| == |Key(Isha)| == 4 && Key(Fajr)[0] != Key(Isha)[0]
    ensures |Key(Dhuhr)| == 5 && |Key(Asr)| == 3 && |Key(Maghrib)| == 7
  {
  }

  /** Every key of the switch list is some prayer's key. */
  lemma KeyOnto(k: string)
    requires k in PrayerKeys
    ensures exists q :: Key(q) == k
  {
    SwitchKeys();
    var i :| 0 <= i < 5 && PrayerKeys[i] == k;
    assert Key(Prayers[i]) == k;
  }

  /** The settings object as the JavaScript object it is: a map from key to
      flag whose own keys are exactly the five prayers' keys. */
  function AsObject(s: PrayerSettings): (m: map<string, bool>)
    ensures forall k :: k in m <==> exists p :: Key(p) == k
    ensures forall p :: Key(p) in m && m[Key(p)] == Enabled(s, p)
  {
    KeysDistinct();
    map[Key(Fajr) := s.fajr, Key(Dhuhr) := s.dhuhr, Key(Asr) := s.asr,
        Key(Maghrib) := s.maghrib, Key(Isha) := s.isha]
  }

  /** The names of the properties a plain object inherits from
      `Object.prototype`. Each holds a function, or for `__proto__` the
      prototype object, so reading one gives a truthy value. */
  const ObjectPrototypeKeys: set<string> := {
    "constructor", "hasOwnProperty", "isPrototypeOf", "propertyIsEnumerable",
    "toLocaleString", "toString", "valueOf", "__proto__",
    "__defineGetter__", "__defineSetter__", "__lookupGetter__", "__lookupSetter__"
  }

  /** Whether `obj[key]` is truthy, for a plain object whose own entries are
      `m`: an own key gives its flag, an inherited one a truthy value, and
      any other key `undefined`. */
  predicate ReadsTruthy(m: map<string, bool>, key: string) {
    if key in m then m[key] else key in ObjectPrototypeKeys
  }

  /** `{...settings, [key]: !settings[key]}` for any string key. The spread
      copies the own entries and the computed key always becomes an own
      entry, `"__proto__"` included; its value is the negation of what
      reading the key gave. */
  function SpreadToggle(m: map<string, bool>, key: string): (r: map<string, bool>)
    ensures r.Keys == m.Keys + {key}
    ensures key in m ==> r[key] == !m[key]
    ensures key !in m ==> (r[key] <==> key !in ObjectPrototypeKeys)
    ensures forall k :: k in m && k != key ==> r[k] == m[k]
  {
    m[key := !ReadsTruthy(m, key)]
  }

  /** The record model agrees with the object spread the source performs,
      so the result keeps exactly the five keys. */
  lemma ToggleIsSpread(s: PrayerSettings, p: Prayer)
    ensures AsObject(Toggle(s, p)) == SpreadToggle(AsObject(s), Key(p))
    ensures SpreadToggle(AsObject(s), Key(p)).Keys == AsObject(s).Keys
  {
    var l := AsObject(Toggle(s, p));
    var r := SpreadToggle(AsObject(s), Key(p));
    SpreadKeepsKeys(s, p);
    forall k | k in l ensures l[k] == r[k] {
      var q :| Key(q) == k;
      SameKeyValue(s, p, q);
    }
    MapsEqual(l, r);
  }

  /** Toggling a prayer's own key adds no key to the object. */
  lemma SpreadKeepsKeys(s: PrayerSettings, p: Prayer)
    ensures AsObject(Toggle(s, p)).Keys == SpreadToggle(AsObject(s), Key(p)).Keys
  {
    assert Key(p) in AsObject(s);
  }

  /** Two maps with the same keys and the same value at each key are equal. */
  lemma MapsEqual<K, V>(l: map<K, V>, r: map<K, V>)
    requires l.Keys == r.Keys
    requires forall k :: k in l ==> l[k] == r[k]
    ensures l == r
  {
  }

  /** The record model and the object spread agree on each prayer's key. */
  lemma SameKeyValue(s: PrayerSettings, p: Prayer, q: Prayer)
    ensures AsObject(Toggle(s, p))[Key(q)] == SpreadToggle(AsObject(s), Key(p))[Key(q)]
  {
    SwitchKeys();
    if q == p {
    } else {
      assert Key(q) != Key(p);
    }
  }

  /** A key outside the five would add a sixth entry to the record, `true`
      unless the key names an inherited `Object.prototype` property: the
      record keeps its shape only because every switch passes one of the
      five keys. */
  lemma SpreadOfUnknownKey(s: PrayerSettings, key: string)
    requires forall p :: Key(p) != key
    ensures |SpreadToggle(AsObject(s), key)| == 6
    ensures SpreadToggle(AsObject(s), key)[key] <==> key !in ObjectPrototypeKeys
  {
    var m := AsObject(s);
    assert m.Keys == {Key(Fajr), Key(Dhuhr), Key(Asr), Key(Maghrib), Key(Isha)};
    assert |m.Keys| == 5;
  }
}
