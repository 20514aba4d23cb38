/** The environment variables the backend reads from `process.env`. An
    unset variable is `None`; wherever the code tests a variable for
    truthiness, an empty value behaves like an unset one. */
module Config {
  import opened Wrappers

  datatype Env = Env(
    frontendUrl: Option<string>,             // FRONTEND_URL
    additionalFrontendUrls: Option<string>,  // ADDITIONAL_FRONTEND_URLS
    emailHost: Option<string>,               // EMAIL_HOST
    emailPort: Option<string>,               // EMAIL_PORT
    emailUser: Option<string>,               // EMAIL_USER
    emailPass: Option<string>,               // EMAIL_PASS
    openAiApiKey: Option<string>)            // OPENAI_API_KEY

  /** A truthy environment value: set and not empty. */
  predicate IsSet(v: Option<string>) {
    v.Some? && v.value != ""
  }

  /** `v || fallback` on an environment value. */
  function OrElse(v: Option<string>, fallback: string): (r: string)
    ensures IsSet(v) ==> r == v.value
    ensures !IsSet(v) ==> r == fallback
  {
    if IsSet(v) then v.value else fallback
  }
}
