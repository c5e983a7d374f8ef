/** The top bar: the user's initials in the avatar, the name and role with
    their fallbacks, the search box's focus flag, the menu button that opens
    the sidebar, and the dropdown's settings and logout actions. */
module Header {
  import opened Shared
  import opened Text
  import opened Seqs
  import opened Session
  import AuthContext
  import DashboardLayout

  /** The first character of each word, joined. An empty word's first
      character is undefined, which join writes as nothing. */
  function FirstChars(words: seq<string>): string
  {
    if words == [] then ""
    else (if words[0] == "" then "" else [words[0][0]]) + FirstChars(words[1..])
  }

  /** getInitials: the first characters of the space-separated words,
      uppercased, at most two. */
  function Initials(name: string): string
  {
    var all := Upper(FirstChars(Split(name, ' ')));
    if |all| <= 2 then all else all[..2]
  }

  predicate IsWord(w: string)
  {
    w != ""
  }

  /** The words the initials come from: the non-empty ones. */
  function NonEmptyWords(name: string): seq<string>
  {
    Filter(Split(name, ' '), IsWord)
  }

  /** The joined first characters are those of the non-empty words, in
      order. */
  lemma {:induction false} FirstCharsOfWords(words: seq<string>)
    ensures var ws := Filter(words, IsWord);
      |FirstChars(words)| == |ws| && forall i :: 0 <= i < |ws| ==> ws[i] in ws && FirstChars(words)[i] == ws[i][0]
  {
    if words != [] {
      var rest := words[1..];
      FirstCharsOfWords(rest);
      var ws, ws' := Filter(words, IsWord), Filter(rest, IsWord);
      if IsWord(words[0]) {
        assert ws == [words[0]] + ws';
        assert FirstChars(words) == [words[0][0]] + FirstChars(rest);
      } else {
        assert ws == ws';
        assert FirstChars(words) == FirstChars(rest);
      }
    }
  }

  /** The initials are the uppercased first characters of the first two
      non-empty words: two when there are two or more, one for a single
      word and none for a blank name. */
  lemma InitialsSpec(name: string)
    ensures var ws := NonEmptyWords(name);
      && |Initials(name)| == (if |ws| < 2 then |ws| else 2)
      && forall i :: 0 <= i < |Initials(name)| ==> ws[i] in ws && Initials(name)[i] == UpperChar(ws[i][0])
  {
    FirstCharsOfWords(Split(name, ' '));
  }

  /** The avatar shows the initials of a signed-in user and "U" otherwise. */
  function AvatarText(user: Option<User>): string
  {
    if user.Some? then Initials(user.value.name) else "U"
  }

  /** user?.name || 'User': an absent or empty name falls back. */
  function ShownName(user: Option<User>): string
  {
    if user.Some? && user.value.name != "" then user.value.name else "User"
  }

  function ShownRole(user: Option<User>): string
  {
    if user.Some? && user.value.role != "" then user.value.role else "Role"
  }

  /** Without a user the bar shows "U", "User" and "Role"; with one it shows
      the user's own non-empty name and role, and a user whose name is
      empty gets an empty avatar but the fallback name. */
  lemma Fallbacks(user: Option<User>)
    ensures user.None? ==> AvatarText(user) == "U" && ShownName(user) == "User" && ShownRole(user) == "Role"
    ensures user.Some? && user.value.name != "" ==> ShownName(user) == user.value.name
    ensures user.Some? && user.value.role != "" ==> ShownRole(user) == user.value.role
    ensures user.Some? && user.value.name == "" ==> AvatarText(user) == "" && ShownName(user) == "User"
  {
    if user.Some? && user.value.name == "" {
      assert Split("", ' ') == [""];
    }
  }

  /** A signed-in user's role after login is never replaced by the
      fallback. */
  lemma LoginRoleShown(email: string, now: string)
    ensures ShownRole(Some(AuthContext.LoginRecord(email, now))) == AuthContext.DummyRole
  {
  }

  const SettingsPath: string := "/dashboard/settings"
  const LoginPath: string := "/login"

  class HeaderBar {
    var searchFocused: bool
    var effects: seq<Effect>

    constructor()
      ensures !searchFocused && effects == []
    {
      searchFocused, effects := false, [];
    }

    method FocusSearch()
      modifies this
      ensures searchFocused && effects == old(effects)
    {
      searchFocused := true;
    }

    method BlurSearch()
      modifies this
      ensures !searchFocused && effects == old(effects)
    {
      searchFocused := false;
    }

    /** The menu button opens the sidebar drawer. */
    method MenuClick(layout: DashboardLayout.Layout)
      modifies layout
      ensures layout.sidebarOpen && layout.sidebarCollapsed == old(layout.sidebarCollapsed)
    {
      layout.MenuClick();
    }

    /** The Profile and Settings entries both open the settings page. */
    method OpenSettings()
      modifies this
      ensures effects == old(effects) + [NavigateTo(SettingsPath)] && searchFocused == old(searchFocused)
    {
      effects := effects + [NavigateTo(SettingsPath)];
    }

    /** handleLogout: the session is dropped, then the sign-in page opens;
        the dashboard frame would no longer render its shell. */
    method HandleLogout(auth: AuthContext.AuthProvider)
      modifies this, auth, auth.storage
      ensures auth.user == None
      ensures auth.storage.items == old(auth.storage.items) - {AuthContext.SessionKey}
      ensures AuthContext.Lookup(auth.storage.items, AuthContext.SessionKey) == None
      ensures auth.isLoading == old(auth.isLoading)
      ensures effects == old(effects) + [NavigateTo(LoginPath)] && searchFocused == old(searchFocused)
      ensures DashboardLayout.Gate(auth.isLoading, auth.IsAuthenticated()) != DashboardLayout.Shell
    {
      auth.Logout();
      effects := effects + [NavigateTo(LoginPath)];
    }
  }
}
