/**
 * What the settings screen shows of the signed-in driver
 * (app/settings.tsx): each profile field with its fallback text, and the
 * avatar's initial.
 */
module SettingsScreen {
  import opened Wrappers
  import opened Types
  import opened Strings
  import Auth

  /** The five texts the profile card shows. */
  datatype ProfileView = ProfileView(name: string, email: string, phone: string, vehicleType: string, status: string)

  /** `user?.field`: every field is absent when there is no user. */
  function Fields(user: Option<User>): User {
    if user.Some? then user.value else User("", None, None, None, None, None, None, None)
  }

  /** The profile card's texts, each `user?.field || fallback`. */
  function ViewProfile(user: Option<User>): (v: ProfileView)
    ensures v.name != "" && v.email != "" && v.phone != "" && v.vehicleType != "" && v.status != ""
    ensures v.email == if Truthy(Fields(user).email) then Fields(user).email.value else "No email"
    ensures v.phone == if Truthy(Fields(user).phone) then Fields(user).phone.value else "No phone"
    ensures v.vehicleType == if Truthy(Fields(user).vehicleType) then Fields(user).vehicleType.value else "Not set"
    ensures v.status == if Truthy(Fields(user).status) then Fields(user).status.value else "active"
  {
    var u := Fields(user);
    assert [u.email][0] == u.email && [u.phone][0] == u.phone;
    assert [u.vehicleType][0] == u.vehicleType && [u.status][0] == u.status;
    ProfileView(
      FirstTruthy([u.fullName, u.name], "Driver"),
      FirstTruthy([u.email], "No email"),
      FirstTruthy([u.phone], "No phone"),
      FirstTruthy([u.vehicleType], "Not set"),
      FirstTruthy([u.status], "active"))
  }

  /** `name.charAt(0)` */
  function AvatarInitial(name: string): (c: string)
    ensures name != "" ==> c == [name[0]]
    ensures name == "" ==> c == ""
  {
    if name == "" then "" else name[..1]
  }

  /** The displayed name: full name, else the `name` field, else 'Driver'. */
  lemma DisplayNamePrecedence(user: Option<User>)
    ensures Truthy(Fields(user).fullName) ==> ViewProfile(user).name == Fields(user).fullName.value
    ensures !Truthy(Fields(user).fullName) && Truthy(Fields(user).name) ==>
              ViewProfile(user).name == Fields(user).name.value
    ensures !Truthy(Fields(user).fullName) && !Truthy(Fields(user).name) ==> ViewProfile(user).name == "Driver"
  {
    var u := Fields(user);
    assert [u.fullName, u.name][0] == u.fullName && [u.fullName, u.name][1] == u.name;
  }

  /** With nobody signed in, every field shows its fallback. */
  lemma NoUserShowsDefaults()
    ensures ViewProfile(None) == ProfileView("Driver", "No email", "No phone", "Not set", "active")
  {
    DisplayNamePrecedence(None);
  }

  /** The avatar always shows exactly one letter: the first of the displayed name. */
  lemma AvatarIsFirstLetterOfName(user: Option<User>)
    ensures |AvatarInitial(ViewProfile(user).name)| == 1
    ensures AvatarInitial(ViewProfile(user).name)[0] == ViewProfile(user).name[0]
  {
  }

  /**
   * For a profile that fetchProfile delivered, the screen's shorter
   * fallback chain shows the same name that fetchProfile computed.
   */
  lemma FetchedProfileNameIsShown(reply: Result<User, ApiError>)
    requires reply.Success?
    ensures ViewProfile(Some(Auth.FetchProfileOutcome(reply).payload)).name == Auth.ProfileName(reply.value)
  {
    var shown := Auth.FetchProfileOutcome(reply).payload;
    DisplayNamePrecedence(Some(shown));
  }
}
