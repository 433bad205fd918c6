/** The application's own page paths. */
module AppPaths {
  /** The sign-in page that the home and settings pages send a visitor without a session to. */
  const LoginPath := "/login"
}
