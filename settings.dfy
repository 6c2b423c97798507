/** The application's configuration, with the default value of each setting. */
module Settings {

  /** Lifetime of a newly issued link, in seconds. */
  const DefaultExpiry: nat := 300

  /** Where a user is sent after logging in, unless the link says otherwise. */
  const DefaultRedirect: string := "/"

  /** Lifetime, in seconds, of a session opened through a link; by default the
      framework's session cookie age, which is two weeks. */
  const SessionExpiry: nat := 1209600
}
