/**
 * src/screens/profile_screen.py: the profile screen shows the stored name
 * and phone with placeholders for empty values, and has its own
 * back-navigation rule, which differs from the app-level one.
 */
module Profile {
  import opened Wrappers
  import ProfileStore
  import Navigation

  const NamePlaceholder: string := "Имя"
  const PhonePlaceholder: string := "+7(000)000-00-00"

  /** `stored or placeholder`: Python's `or` picks the placeholder for an empty string. */
  function DisplayOr(stored: string, placeholder: string): string {
    if stored != "" then stored else placeholder
  }

  /** A shown field is never empty, keeps a stored value unchanged, and showing it again changes nothing. */
  lemma DisplayOrShown(stored: string, placeholder: string)
    requires placeholder != ""
    ensures DisplayOr(stored, placeholder) != ""
    ensures stored != "" ==> DisplayOr(stored, placeholder) == stored
    ensures stored == "" ==> DisplayOr(stored, placeholder) == placeholder
    ensures DisplayOr(DisplayOr(stored, placeholder), placeholder) == DisplayOr(stored, placeholder)
  {
  }

  /** `previous_screen if previous_screen and has_screen(previous_screen) else 'main'`. */
  function BackTarget(previous: Option<string>, screens: seq<string>): string {
    if Navigation.IsSet(previous) && previous.value in screens then previous.value else Navigation.Home
  }

  /**
   * The profile rule agrees with the app-level `go_back` whenever the home
   * screen is registered and the remembered screen is not the current one.
   */
  lemma BackTargetAgreesWithApp(s: Navigation.NavState)
    requires Navigation.Home in s.screens
    requires !(Navigation.IsSet(s.previous) && s.previous.value == s.current)
    ensures Navigation.WentBack(s).current == BackTarget(s.previous, s.screens)
  {
  }

  /**
   * Where they differ, and how it arises: open the news screen from the
   * profile, return with the app-level back, and the remembered screen is
   * the profile itself. The profile's back button then targets the screen
   * already shown, while the app-level rule would go home.
   */
  lemma {:induction false} ProfileBackCanStayPut(s0: Navigation.NavState)
    requires s0 == Navigation.NavState("profile", ["main", "profile", "news"], None)
    ensures var s := Navigation.WentBack(Navigation.Opened(s0, "news"));
            s.current == "profile" &&
            BackTarget(s.previous, s.screens) == s.current &&
            Navigation.WentBack(s).current == Navigation.Home
  {
    var s1 := Navigation.Opened(s0, "news");
    assert "news" in s0.screens;
    assert s1 == Navigation.NavState("news", s0.screens, Some("profile"));
    var s := Navigation.WentBack(s1);
    assert s == Navigation.NavState("profile", s0.screens, Some("profile"));
  }

  class ProfileScreen {
    /** The `user_name` property shown on the screen. */
    var userName: string
    /** The `user_phone` property shown on the screen. */
    var userPhone: string

    constructor ()
      ensures userName == "" && userPhone == ""
    {
      userName := "";
      userPhone := "";
    }

    /** `_load_user`: the stored name and phone, placeholders for empty ones. */
    method LoadUser(db: ProfileStore.Database)
      modifies this
      ensures var stored := db.row.GetOr(ProfileStore.EmptyRow);
              userName == DisplayOr(stored.name, NamePlaceholder) &&
              userPhone == DisplayOr(stored.phone, PhonePlaceholder)
    {
      var user := db.GetUser();
      userName := DisplayOr(user.name, NamePlaceholder);
      userPhone := DisplayOr(user.phone, PhonePlaceholder);
    }

    /**
     * `go_back`: without a screen manager nothing happens; without a running
     * app, go home if the home screen is registered; otherwise switch to
     * `BackTarget`, which Kivy refuses when that screen is not registered.
     */
    method GoBack(manager: Navigation.Navigator?, appRunning: bool) returns (switched: bool)
      requires manager != null ==> manager.Valid()
      modifies manager
      ensures manager == null ==> !switched
      ensures manager != null ==> manager.Valid() && manager.State().screens == old(manager.State().screens)
      ensures manager != null ==> manager.previous == old(manager.previous)
      ensures manager != null && !appRunning ==>
                switched == (Navigation.Home in manager.screens) &&
                manager.current == if switched then Navigation.Home else old(manager.current)
      ensures manager != null && appRunning ==>
                var target := BackTarget(old(manager.previous), manager.screens);
                switched == (target in manager.screens) &&
                manager.current == if switched then target else old(manager.current)
    {
      if manager == null {
        return false;
      }
      if !appRunning {
        switched := false;
        if Navigation.Home in manager.screens {
          switched := manager.SwitchTo(Navigation.Home);
        }
        return;
      }
      var target := BackTarget(manager.previous, manager.screens);
      switched := manager.SwitchTo(target);
    }
  }
}
