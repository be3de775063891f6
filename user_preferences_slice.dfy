/**
 * The `userPreferences` slice of the store: theme, default platforms,
 * default reminder lead time (minutes) and default notification channel.
 * Each reducer assigns one field of the store object in place.
 */
module UserPreferencesSlice {
  import opened ContestTypes

  const InitialPreferences: UserPreferences :=
    UserPreferences(Light, [Codeforces, CodeChef, LeetCode], 60, Email)

  class PreferencesStore {
    var theme: Theme
    var defaultPlatforms: seq<Platform>
    var defaultReminderTime: int
    var defaultNotificationType: NotificationType

    function State(): UserPreferences
      reads this
    {
      UserPreferences(theme, defaultPlatforms, defaultReminderTime, defaultNotificationType)
    }

    /** Light theme, all three platforms, one hour ahead, by email. */
    constructor ()
      ensures theme == Light && defaultPlatforms == [Codeforces, CodeChef, LeetCode]
      ensures defaultReminderTime == 60 && defaultNotificationType == Email
      ensures State() == InitialPreferences
    {
      theme := Light;
      defaultPlatforms := [Codeforces, CodeChef, LeetCode];
      defaultReminderTime := 60;
      defaultNotificationType := Email;
    }

    method SetTheme(value: Theme)
      modifies this
      ensures State() == old(State()).(theme := value)
    {
      theme := value;
    }

    method SetDefaultPlatforms(value: seq<Platform>)
      modifies this
      ensures State() == old(State()).(defaultPlatforms := value)
    {
      defaultPlatforms := value;
    }

    method SetDefaultReminderTime(value: int)
      modifies this
      ensures State() == old(State()).(defaultReminderTime := value)
    {
      defaultReminderTime := value;
    }

    method SetDefaultNotificationType(value: NotificationType)
      modifies this
      ensures State() == old(State()).(defaultNotificationType := value)
    {
      defaultNotificationType := value;
    }
  }
}
