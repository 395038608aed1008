/**
 * The reader's settings store (src/settings.js): a key/value mapping loaded from
 * one browser storage slot, updated one key at a time, written back in full on
 * every update, and broadcast to an ordered list of listeners.
 */
module SettingsStore {

  /**
   * A setting value as the store holds it. Numbers are exact decimals,
   * `Num(m, k)` standing for m * 10^-k, so that 1.6 is `Num(16, 1)`.
   */
  datatype Value = Num(mantissa: int, scale: nat) | Str(text: string)

  /** The mapping held in memory and, serialised, in the storage slot. */
  type Settings = map<string, Value>

  /** A subscribed callback, identified by its registration handle. */
  type ListenerId = nat

  /** The single storage slot that holds the serialised settings. */
  const SlotKey: string := "reader-settings"

  /** The serif family the reader starts with. */
  const DefaultFontFamily: string := "'Source Serif 4', Georgia, serif"

  /** The defaults table. There is no `theme` entry. */
  function Defaults(): (d: Settings)
    ensures d.Keys == {"fontSize", "lineHeight", "readerWidth", "fontFamily", "apiKey"}
    ensures "theme" !in d
  {
    map["fontSize" := Num(18, 0), "lineHeight" := Num(16, 1), "readerWidth" := Num(80, 0),
        "fontFamily" := Str(DefaultFontFamily), "apiKey" := Str("")]
  }

  /** What the host observes, in order: storage writes and listener invocations. */
  datatype Effect =
    | Stored(slot: string, snapshot: Settings)
    | Notified(listener: ListenerId, snapshot: Settings)

  /** The invocations made by one broadcast of `s` to `listeners`. */
  function Notifications(listeners: seq<ListenerId>, s: Settings): seq<Effect>
  {
    if listeners == [] then [] else [Notified(listeners[0], s)] + Notifications(listeners[1..], s)
  }

  /** A broadcast calls every listener exactly once, in subscription order, with the same snapshot. */
  lemma {:induction false} NotificationsInOrder(listeners: seq<ListenerId>, s: Settings)
    ensures |Notifications(listeners, s)| == |listeners|
    ensures forall i :: 0 <= i < |listeners| ==> Notifications(listeners, s)[i] == Notified(listeners[i], s)
  {
    if listeners != [] {
      NotificationsInOrder(listeners[1..], s);
    }
  }

  /** Broadcasting to two lists in turn is broadcasting to their concatenation. */
  lemma {:induction false} NotificationsAppend(a: seq<ListenerId>, b: seq<ListenerId>, s: Settings)
    ensures Notifications(a + b, s) == Notifications(a, s) + Notifications(b, s)
  {
    if a != [] {
      assert (a + b)[0] == a[0] && (a + b)[1..] == a[1..] + b;
      NotificationsAppend(a[1..], b, s);
    } else {
      assert a + b == b;
    }
  }

  /** The browser page the store runs in: its `localStorage` and the trace of observable effects. */
  class Browser {
    var localStorage: map<string, Settings>
    var effects: seq<Effect>

    constructor (stored: map<string, Settings>)
      ensures localStorage == stored && effects == []
    {
      localStorage := stored;
      effects := [];
    }

    /** `localStorage.setItem`: overwrites one slot. */
    method SetItem(slot: string, s: Settings)
      modifies this
      ensures localStorage == old(localStorage)[slot := s]
      ensures effects == old(effects) + [Stored(slot, s)]
    {
      localStorage := localStorage[slot := s];
      effects := effects + [Stored(slot, s)];
    }
  }

  class SettingsManager {
    const browser: Browser
    const defaults: Settings := Defaults()
    var settings: Settings
    var listeners: seq<ListenerId>

    /** The store's invariant: whenever the slot holds a mapping, it is the one in memory. */
    ghost predicate Valid()
      reads this, browser
    {
      SlotKey in browser.localStorage ==> browser.localStorage[SlotKey] == settings
    }

    constructor (browser: Browser)
      ensures Valid()
      ensures this.browser == browser && defaults == Defaults()
      ensures SlotKey in browser.localStorage ==> settings == browser.localStorage[SlotKey]
      ensures SlotKey !in browser.localStorage ==> settings == Defaults()
      ensures listeners == []
    {
      this.browser := browser;
      new;
      settings := Load();
      listeners := [];
    }

    /**
     * Reads the slot. A stored mapping is returned exactly as stored, without
     * filling in missing keys; an empty slot yields a copy of the defaults.
     */
    method Load() returns (s: Settings)
      ensures SlotKey in browser.localStorage ==> s == browser.localStorage[SlotKey]
      ensures SlotKey !in browser.localStorage ==> s == defaults
    {
      if SlotKey in browser.localStorage {
        s := browser.localStorage[SlotKey];
      } else {
        s := defaults;
      }
    }

    /** Writes the whole mapping to the slot, then broadcasts it. */
    method Save()
      modifies browser
      ensures Valid()
      ensures browser.localStorage == old(browser.localStorage)[SlotKey := settings]
      ensures browser.effects == old(browser.effects) + [Stored(SlotKey, settings)] + Notifications(listeners, settings)
    {
      browser.SetItem(SlotKey, settings);
      Notify();
    }

    method Get() returns (s: Settings)
      ensures s == settings
    {
      s := settings;
    }

    /** Updates one key, persists, and notifies; every other key keeps its value. */
    method Set(key: string, value: Value)
      requires Valid()
      modifies this`settings, browser
      ensures Valid()
      ensures settings == old(settings)[key := value]
      ensures key in settings && settings[key] == value
      ensures forall k :: k in old(settings) && k != key ==> k in settings && settings[k] == old(settings)[k]
      ensures settings.Keys == old(settings).Keys + {key}
      ensures browser.localStorage == old(browser.localStorage)[SlotKey := settings]
      ensures browser.effects == old(browser.effects) + [Stored(SlotKey, settings)] + Notifications(listeners, settings)
    {
      settings := settings[key := value];
      Save();
    }

    /** Appends a callback to the listener list; calls nothing and changes no setting. */
    method Subscribe(callback: ListenerId)
      requires Valid()
      modifies this`listeners
      ensures Valid()
      ensures listeners == old(listeners) + [callback]
      ensures settings == old(settings) && unchanged(browser)
    {
      listeners := listeners + [callback];
    }

    /** Calls each listener once, in list order, with the current mapping. */
    method Notify()
      requires Valid()
      modifies browser`effects
      ensures Valid()
      ensures browser.effects == old(browser.effects) + Notifications(listeners, settings)
    {
      var i := 0;
      while i < |listeners|
        invariant 0 <= i <= |listeners|
        invariant browser.effects == old(browser.effects) + Notifications(listeners[..i], settings)
      {
        NotificationsAppend(listeners[..i], [listeners[i]], settings);
        assert listeners[..i + 1] == listeners[..i] + [listeners[i]];
        browser.effects := browser.effects + [Notified(listeners[i], settings)];
        i := i + 1;
      }
      assert listeners[..i] == listeners;
    }
  }

  /** A fresh store over an empty slot holds the defaults table, with no `theme` key. */
  method FreshStoreDefaults() returns (s: Settings)
    ensures s == Defaults()
    ensures s["fontSize"] == Num(18, 0) && s["lineHeight"] == Num(16, 1) && s["readerWidth"] == Num(80, 0)
    ensures s["fontFamily"] == Str(DefaultFontFamily) && s["apiKey"] == Str("")
    ensures "theme" !in s
  {
    var browser := new Browser(map[]);
    var store := new SettingsManager(browser);
    s := store.Get();
  }

  /**
   * Persistence round trip: a store built over the same storage after `set(key, value)`
   * loads the last-set snapshot, which holds `value` at `key`.
   */
  method ReloadAfterSet(stored: map<string, Settings>, key: string, value: Value) returns (reloaded: Settings)
    ensures key in reloaded && reloaded[key] == value
    ensures SlotKey in stored ==> reloaded == stored[SlotKey][key := value]
    ensures SlotKey !in stored ==> reloaded == Defaults()[key := value]
  {
    var browser := new Browser(stored);
    var first := new SettingsManager(browser);
    first.Set(key, value);
    var second := new SettingsManager(browser);
    reloaded := second.Get();
  }

  /**
   * With two subscribers, one `set` writes the slot first and then calls the
   * subscribers once each, in subscription order, with the updated mapping.
   */
  method SetNotifiesSubscribers(first: ListenerId, second: ListenerId, key: string, value: Value)
    returns (trace: seq<Effect>, snapshot: Settings)
    ensures key in snapshot && snapshot[key] == value
    ensures trace == [Stored(SlotKey, snapshot), Notified(first, snapshot), Notified(second, snapshot)]
  {
    var browser := new Browser(map[]);
    var store := new SettingsManager(browser);
    store.Subscribe(first);
    store.Subscribe(second);
    store.Set(key, value);
    snapshot := store.Get();
    trace := browser.effects;
    NotificationsInOrder([first, second], snapshot);
  }

  /** A stored mapping that lacks keys is loaded as it is: the defaults are not merged in. */
  method LoadKeepsPartialMapping() returns (s: Settings)
    ensures s == map["fontSize" := Num(24, 0)]
    ensures "apiKey" !in s && "lineHeight" !in s
  {
    var browser := new Browser(map[SlotKey := map["fontSize" := Num(24, 0)]]);
    var store := new SettingsManager(browser);
    s := store.Get();
  }
}
