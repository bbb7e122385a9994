/** The settings store: display preferences and three notification flags,
    where any specific notification being on keeps the global flag on. */
module SettingsStore {

  datatype Language = Es | En
  datatype DateFormat = Hours12 | Hours24
  datatype MeasurementSystem = Metric | Imperial

  /** The seven settings. */
  datatype Settings = Settings(
    darkMode: bool,
    language: Language,
    dateFormat: DateFormat,
    measurementSystem: MeasurementSystem,
    notifications: bool,
    reminderNotifications: bool,
    updateNotifications: bool)
  {
    // The actions, as functions from the current settings to the next.

    function ToggleDarkMode(): Settings
    {
      this.(darkMode := !darkMode)
    }

    function SetLanguage(language: Language): Settings
    {
      this.(language := language)
    }

    function SetDateFormat(dateFormat: DateFormat): Settings
    {
      this.(dateFormat := dateFormat)
    }

    function SetMeasurementSystem(system: MeasurementSystem): Settings
    {
      this.(measurementSystem := system)
    }

    /** Flip the global flag; turning it off also turns both specific flags off. */
    function ToggleNotifications(): Settings
    {
      var on := !notifications;
      this.(notifications := on,
         reminderNotifications := if on then reminderNotifications else false,
         updateNotifications := if on then updateNotifications else false)
    }

    /** Flip the reminder flag; the global flag is forced on if the new reminder
        flag or the current update flag is on. */
    function ToggleReminderNotifications(): Settings
    {
      this.(reminderNotifications := !reminderNotifications,
         notifications := if !reminderNotifications || updateNotifications then true else notifications)
    }

    /** Flip the update flag; the global flag is forced on if the current
        reminder flag or the new update flag is on. */
    function ToggleUpdateNotifications(): Settings
    {
      this.(updateNotifications := !updateNotifications,
         notifications := if reminderNotifications || !updateNotifications then true else notifications)
    }
  }

  /** `defaultSettings`: light mode, Spanish, 24-hour clock, metric, every notification on. */
  const Defaults: Settings := Settings(false, Es, Hours24, Metric, true, true, true)

  /** The coupling the notification toggles keep: if a specific notification
      is on, so is the global flag. */
  predicate Coupled(s: Settings)
  {
    (s.reminderNotifications || s.updateNotifications) ==> s.notifications
  }

  /** The defaults satisfy the coupling. */
  lemma DefaultsCoupled()
    ensures Coupled(Defaults)
    ensures !Defaults.darkMode && Defaults.language == Es && Defaults.dateFormat == Hours24
    ensures Defaults.measurementSystem == Metric
    ensures Defaults.notifications && Defaults.reminderNotifications && Defaults.updateNotifications
  {
  }

  /** Every action keeps the coupling. */
  lemma ActionsPreserveCoupling(s: Settings, l: Language, d: DateFormat, m: MeasurementSystem)
    requires Coupled(s)
    ensures Coupled(s.ToggleDarkMode())
    ensures Coupled(s.SetLanguage(l)) && Coupled(s.SetDateFormat(d)) && Coupled(s.SetMeasurementSystem(m))
    ensures Coupled(s.ToggleNotifications())
    ensures Coupled(s.ToggleReminderNotifications())
    ensures Coupled(s.ToggleUpdateNotifications())
  {
  }

  /** The toggles that touch only their own flag, and the global toggle's two
      directions: off forces both specific flags off, on leaves them as they are. */
  lemma ToggleEffects(s: Settings)
    ensures s.ToggleDarkMode().darkMode != s.darkMode
    ensures s.ToggleDarkMode().ToggleDarkMode() == s
    ensures s.ToggleNotifications().notifications == !s.notifications
    ensures s.notifications ==>
      !s.ToggleNotifications().reminderNotifications && !s.ToggleNotifications().updateNotifications
    ensures !s.notifications ==>
      s.ToggleNotifications() == s.(notifications := true)
    ensures s.ToggleReminderNotifications().reminderNotifications != s.reminderNotifications
    ensures s.ToggleReminderNotifications().notifications ==
      (!s.reminderNotifications || s.updateNotifications || s.notifications)
    ensures s.ToggleUpdateNotifications().updateNotifications != s.updateNotifications
    ensures s.ToggleUpdateNotifications().notifications ==
      (s.reminderNotifications || !s.updateNotifications || s.notifications)
  {
  }

  /** The setters change only their own field and are idempotent. */
  lemma SettersIdempotent(s: Settings, l: Language, d: DateFormat, m: MeasurementSystem)
    ensures s.SetLanguage(l).SetLanguage(l) == s.SetLanguage(l) && s.SetLanguage(l).(language := s.language) == s
    ensures s.SetDateFormat(d).SetDateFormat(d) == s.SetDateFormat(d) && s.SetDateFormat(d).(dateFormat := s.dateFormat) == s
    ensures s.SetMeasurementSystem(m).SetMeasurementSystem(m) == s.SetMeasurementSystem(m)
    ensures s.SetMeasurementSystem(m).(measurementSystem := s.measurementSystem) == s
  {
  }

  /** One store action, as a value. */
  datatype Action =
    | ToggleDarkModeAction
    | SetLanguageAction(language: Language)
    | SetDateFormatAction(dateFormat: DateFormat)
    | SetMeasurementSystemAction(system: MeasurementSystem)
    | ToggleNotificationsAction
    | ToggleReminderNotificationsAction
    | ToggleUpdateNotificationsAction
    | ResetSettingsAction

  /** The settings after one action. */
  function Apply(s: Settings, a: Action): Settings
  {
    match a
    case ToggleDarkModeAction => s.ToggleDarkMode()
    case SetLanguageAction(l) => s.SetLanguage(l)
    case SetDateFormatAction(d) => s.SetDateFormat(d)
    case SetMeasurementSystemAction(m) => s.SetMeasurementSystem(m)
    case ToggleNotificationsAction => s.ToggleNotifications()
    case ToggleReminderNotificationsAction => s.ToggleReminderNotifications()
    case ToggleUpdateNotificationsAction => s.ToggleUpdateNotifications()
    case ResetSettingsAction => Defaults
  }

  /** The settings after a sequence of actions, first to last. */
  function Run(s: Settings, actions: seq<Action>): Settings
    decreases |actions|
  {
    if actions == [] then s else Run(Apply(s, actions[0]), actions[1..])
  }

  /** Starting from the defaults, no sequence of actions ever leaves a specific
      notification on while the global flag is off. */
  lemma {:induction false} RunPreservesCoupling(s: Settings, actions: seq<Action>)
    requires Coupled(s)
    ensures Coupled(Run(s, actions))
    decreases |actions|
  {
    if actions != [] {
      var l, d, m := Es, Hours24, Metric;
      match actions[0] {
        case SetLanguageAction(l') => l := l';
        case SetDateFormatAction(d') => d := d';
        case SetMeasurementSystemAction(m') => m := m';
        case _ =>
      }
      ActionsPreserveCoupling(s, l, d, m);
      DefaultsCoupled();
      RunPreservesCoupling(Apply(s, actions[0]), actions[1..]);
    }
  }

  /** Turning the global flag off and on again leaves both specific flags off. */
  lemma NotificationsOffOn(s: Settings)
    requires s.notifications
    ensures s.ToggleNotifications().ToggleNotifications() ==
      s.(reminderNotifications := false, updateNotifications := false)
  {
  }

  /** The store, one field per setting. */
  class Store {
    var darkMode: bool
    var language: Language
    var dateFormat: DateFormat
    var measurementSystem: MeasurementSystem
    var notifications: bool
    var reminderNotifications: bool
    var updateNotifications: bool

    /** The seven fields as one value. */
    function Snapshot(): Settings
      reads this
    {
      Settings(darkMode, language, dateFormat, measurementSystem,
               notifications, reminderNotifications, updateNotifications)
    }

    /** The store's invariant. */
    predicate Valid()
      reads this
    {
      Coupled(Snapshot())
    }

    /** The initial state is the defaults. */
    constructor()
      ensures Snapshot() == Defaults && Valid()
    {
      darkMode, language, dateFormat, measurementSystem := false, Es, Hours24, Metric;
      notifications, reminderNotifications, updateNotifications := true, true, true;
    }

    method ToggleDarkMode()
      requires Valid()
      modifies this
      ensures Snapshot() == old(Snapshot()).ToggleDarkMode() && Valid()
    {
      darkMode := !darkMode;
    }

    method SetLanguage(l: Language)
      requires Valid()
      modifies this
      ensures Snapshot() == old(Snapshot()).SetLanguage(l) && Valid()
    {
      language := l;
    }

    method SetDateFormat(d: DateFormat)
      requires Valid()
      modifies this
      ensures Snapshot() == old(Snapshot()).SetDateFormat(d) && Valid()
    {
      dateFormat := d;
    }

    method SetMeasurementSystem(m: MeasurementSystem)
      requires Valid()
      modifies this
      ensures Snapshot() == old(Snapshot()).SetMeasurementSystem(m) && Valid()
    {
      measurementSystem := m;
    }

    method ToggleNotifications()
      requires Valid()
      modifies this
      ensures Snapshot() == old(Snapshot()).ToggleNotifications() && Valid()
    {
      var on := !notifications;
      notifications := on;
      reminderNotifications := if on then reminderNotifications else false;
      updateNotifications := if on then updateNotifications else false;
    }

    method ToggleReminderNotifications()
      requires Valid()
      modifies this
      ensures Snapshot() == old(Snapshot()).ToggleReminderNotifications() && Valid()
    {
      notifications := if !reminderNotifications || updateNotifications then true else notifications;
      reminderNotifications := !reminderNotifications;
    }

    method ToggleUpdateNotifications()
      requires Valid()
      modifies this
      ensures Snapshot() == old(Snapshot()).ToggleUpdateNotifications() && Valid()
    {
      notifications := if reminderNotifications || !updateNotifications then true else notifications;
      updateNotifications := !updateNotifications;
    }

    method ResetSettings()
      modifies this
      ensures Snapshot() == Defaults && Valid()
    {
      darkMode, language, dateFormat, measurementSystem := false, Es, Hours24, Metric;
      notifications, reminderNotifications, updateNotifications := true, true, true;
    }
  }
}
