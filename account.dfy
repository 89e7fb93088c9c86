/**
 * The account labels of the sidebar (`AccountSection` in
 * Sources/Glitcho/ContentView.swift): the scraped profile name and login
 * are cleaned by `normalized`, and the display name and subtitle fall back
 * through fixed texts.
 */
module Account {
  import opened Wrappers
  import opened Text

  /** Texts the page shows in place of a real name; they never count as one. */
  const Placeholders: seq<string> := ["user", "profile", "account", "avatar", "menu", "user menu"]

  predicate IsPlaceholder(trimmed: string) {
    Lower(trimmed) in Placeholders
  }

  /**
   * `normalized`: the trimmed text, unless there is no text, it is blank,
   * or it is a placeholder in any letter case.
   */
  function Normalized(value: Option<string>): (r: Option<string>)
    ensures value == None ==> r == None
    ensures value.Some? && Trim(value.value) == "" ==> r == None
    ensures value.Some? && IsPlaceholder(Trim(value.value)) ==> r == None
    ensures r.Some? ==> value.Some? && r.value == Trim(value.value)
    ensures r.Some? ==> r.value != "" && NoOuterWhitespace(r.value) && !IsPlaceholder(r.value)
    ensures value.Some? && Trim(value.value) != "" && !IsPlaceholder(Trim(value.value)) ==> r.Some?
  {
    match value
    case None => None
    case Some(v) =>
      var trimmed := Trim(v);
      if trimmed == "" then None
      else if Lower(trimmed) in Placeholders then None
      else Some(trimmed)
  }

  /** A normalized value normalizes to itself. */
  lemma NormalizedIdempotent(value: Option<string>)
    requires Normalized(value).Some?
    ensures Normalized(Normalized(value)) == Normalized(value)
  {
    TrimOfTrimmed(Normalized(value).value);
  }

  /** Whitespace around a name does not change what it normalizes to. */
  lemma NormalizedIgnoresPadding(pre: string, name: string, post: string)
    requires AllWhitespace(pre) && AllWhitespace(post)
    ensures Normalized(Some(pre + name + post)) == Normalized(Some(name))
  {
    TrimIgnoresPadding(pre, name, post);
  }

  /** The name line: profile name, else login, else a sign-in dependent text. */
  function DisplayName(profileName: Option<string>, profileLogin: Option<string>, isLoggedIn: bool): (r: string)
    ensures Normalized(profileName).Some? ==> r == Normalized(profileName).value
    ensures Normalized(profileName).None? && Normalized(profileLogin).Some? ==> r == Normalized(profileLogin).value
    ensures Normalized(profileName).None? && Normalized(profileLogin).None? ==>
              r == (if isLoggedIn then "Profile" else "Not signed in")
    ensures r != ""
  {
    Normalized(profileName).GetOr(Normalized(profileLogin).GetOr(if isLoggedIn then "Profile" else "Not signed in"))
  }

  /** The line under the name: a sign-in prompt, the login as a handle, or "Account". */
  function Subtitle(profileLogin: Option<string>, isLoggedIn: bool): (r: string)
    ensures !isLoggedIn ==> r == "Sign in to continue"
    ensures isLoggedIn && Normalized(profileLogin).Some? ==> r == "@" + Normalized(profileLogin).value
    ensures isLoggedIn && Normalized(profileLogin).None? ==> r == "Account"
  {
    if !isLoggedIn then "Sign in to continue"
    else match Normalized(profileLogin)
      case Some(login) => "@" + login
      case None => "Account"
  }

  /**
   * When only the login is usable, the display name is the login and the
   * subtitle is the same login as a handle.
   */
  lemma LoginOnlyAccount(profileName: Option<string>, login: string)
    requires Normalized(profileName).None? && Normalized(Some(login)).Some?
    ensures DisplayName(profileName, Some(login), true) == Trim(login)
    ensures Subtitle(Some(login), true) == "@" + DisplayName(profileName, Some(login), true)
  {
  }

  /** A signed-out user with no usable scraped name sees both fallback texts. */
  lemma SignedOutFallbacks(profileName: Option<string>, profileLogin: Option<string>)
    requires Normalized(profileName).None? && Normalized(profileLogin).None?
    ensures DisplayName(profileName, profileLogin, false) == "Not signed in"
    ensures Subtitle(profileLogin, false) == "Sign in to continue"
  {
  }
}
