/** The simulated sign-in dialog (AuthOverlay.tsx): its form state and the
    mock user it builds on submit. No credential is checked; the random id is
    an input. */
module Auth {
  import opened Types
  import opened Text

  const AvatarPrefix := "https://api.dicebear.com/7.x/avataaars/svg?seed="

  const DefaultSignupName := "New User"

  datatype AuthForm = AuthForm(isLogin: bool, role: UserRole, name: string, email: string, password: string)

  /** The dialog opens in sign-in mode, as a Student, with empty fields. */
  function Initial(): (f: AuthForm)
    ensures f.isLogin && f.role == Student
    ensures f.name == "" && f.email == "" && f.password == ""
  {
    AuthForm(true, Student, "", "", "")
  }

  /** The sign-in / sign-up switch flips the mode and nothing else: the role
      and every field survive. */
  function ToggleMode(f: AuthForm): (r: AuthForm)
    ensures r.isLogin == !f.isLogin
    ensures r.role == f.role && r.name == f.name && r.email == f.email && r.password == f.password
  {
    f.(isLogin := !f.isLogin)
  }

  /** The tier buttons (shown in sign-up mode). */
  function ChooseRole(f: AuthForm, role: UserRole): (r: AuthForm)
    ensures r.role == role && r.isLogin == f.isLogin
    ensures r.name == f.name && r.email == f.email && r.password == f.password
  {
    f.(role := role)
  }

  /** `formData.name || (isLogin ? formData.email.split('@')[0] : 'New User')`. */
  function DisplayName(f: AuthForm): (r: string)
    ensures f.name != "" ==> r == f.name
    ensures f.name == "" && f.isLogin ==>
              |r| <= |f.email| && r == f.email[..|r|] && '@' !in r
              && (|r| < |f.email| ==> f.email[|r|] == '@')
    ensures f.name == "" && !f.isLogin ==> r == DefaultSignupName
  {
    if f.name != "" then f.name
    else if f.isLogin then Before(f.email, '@')
    else DefaultSignupName
  }

  /** `handleSubmit`'s mock user: the given id, the display name, the email as
      typed, the role chosen, and an avatar URL seeded with the email. */
  function BuildUser(f: AuthForm, id: string): (u: User)
    ensures u.id == id && u.email == f.email && u.role == f.role
    ensures u.name == DisplayName(f)
    ensures u.avatar == Some(AvatarPrefix + f.email)
  {
    User(id, DisplayName(f), f.email, f.role, Some(AvatarPrefix + f.email))
  }

  /** The avatar URL determines the email: different emails give different
      avatars. */
  lemma AvatarDeterminesEmail(f: AuthForm, g: AuthForm, id: string, id': string)
    requires BuildUser(f, id).avatar == BuildUser(g, id').avatar
    ensures f.email == g.email
  {
    var a := AvatarPrefix + f.email;
    assert a[|AvatarPrefix|..] == f.email;
    assert (AvatarPrefix + g.email)[|AvatarPrefix|..] == g.email;
  }

  /** Signing in without a name uses the email's local part; an email with no
      '@' is used whole, and whatever follows the first '@' never matters. */
  lemma LoginNameFromEmail(email: string, domain: string, password: string, role: UserRole, id: string)
    ensures '@' !in email ==> BuildUser(AuthForm(true, role, "", email, password), id).name == email
    ensures BuildUser(AuthForm(true, role, "", email + "@" + domain, password), id).name
              == BuildUser(AuthForm(true, role, "", email, password), id).name
  {
    if '@' in email {
      BeforeIgnoresTail(email, "@" + domain, '@');
      assert email + "@" + domain == email + ("@" + domain);
    } else {
      BeforeWithoutSeparator(email, '@');
      BeforeStopsAtSeparator(email, domain, '@');
      assert email + "@" + domain == email + ['@'] + domain;
    }
  }
}
