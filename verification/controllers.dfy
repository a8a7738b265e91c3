/** Choosing how the bot runs (`newController`) and where it stores its data
    (`configStore`), from the process environment. */
module Controllers {
  import opened Values

  /** The environment variables the bot reads; each may be unset. */
  datatype Env = Env(token: Option<string>, slackToken: Option<string>, clientId: Option<string>, clientSecret: Option<string>, port: Option<string>)

  /** JavaScript truthiness of an environment value: set and non-empty. */
  predicate Truthy(v: Option<string>)
  {
    v.Some? && v.value != ""
  }

  const CustomStorePath := "./db_slack_bot_ci/"
  const AppStorePath := "./db_slack_bot_a/"

  /** The persistence options handed to the controller. */
  datatype StoreConfig = StoreConfig(jsonFileStore: string)

  function ConfigStore(custom: bool): StoreConfig
  {
    StoreConfig(if custom then CustomStorePath else AppStorePath)
  }

  /** The store the constructor configures: decided by TOKEN alone. */
  function InitialStore(env: Env): (store: StoreConfig)
    ensures store.jsonFileStore == CustomStorePath <==> Truthy(env.token)
    ensures store.jsonFileStore == AppStorePath <==> !Truthy(env.token)
  {
    ConfigStore(Truthy(env.token))
  }

  /** A configured platform controller. */
  datatype Controller =
    | CustomIntegration(token: string, store: StoreConfig)
    | App(port: string, clientId: string, clientSecret: string, store: StoreConfig)

  /** The choice `newController` makes: a controller, or exiting the process. */
  datatype Selection = Selected(controller: Controller) | Fatal(exitCode: int)

  function NewController(env: Env, store: StoreConfig): (s: Selection)
    ensures s.Selected? ==> s.controller.store == store
    ensures (s.Selected? && s.controller.CustomIntegration?) <==> Truthy(env.token) || Truthy(env.slackToken)
    ensures (s.Selected? && s.controller.App?) <==> !Truthy(env.token) && !Truthy(env.slackToken) && Truthy(env.clientId) && Truthy(env.clientSecret) && Truthy(env.port)
    ensures (s.Selected? && s.controller.App?) ==> s.controller == App(env.port.value, env.clientId.value, env.clientSecret.value, store)
    ensures s.Fatal? ==> s.exitCode == 1
  {
    if Truthy(env.token) || Truthy(env.slackToken) then
      var token := if Truthy(env.token) then env.token.value else env.slackToken.value;
      Selected(CustomIntegration(token, store))
    else if Truthy(env.clientId) && Truthy(env.clientSecret) && Truthy(env.port) then
      Selected(App(env.port.value, env.clientId.value, env.clientSecret.value, store))
    else
      Fatal(1)
  }

  /** TOKEN wins over SLACK_TOKEN; SLACK_TOKEN is used only when TOKEN is unset or empty. */
  lemma TokenPreferred(env: Env, store: StoreConfig)
    requires Truthy(env.token) || Truthy(env.slackToken)
    ensures NewController(env, store).Selected?
    ensures Truthy(env.token) ==> NewController(env, store).controller == CustomIntegration(env.token.value, store)
    ensures !Truthy(env.token) ==> NewController(env, store).controller == CustomIntegration(env.slackToken.value, store)
  {
  }

  /** A bot configured with only SLACK_TOKEN runs as a custom integration but
      keeps its data in the app's store. */
  lemma SlackTokenUsesAppStore(env: Env)
    requires !Truthy(env.token) && Truthy(env.slackToken)
    ensures NewController(env, InitialStore(env)) == Selected(CustomIntegration(env.slackToken.value, StoreConfig(AppStorePath)))
  {
  }

  /** With no credentials at all the process exits with status 1. */
  lemma NoCredentialsExit(env: Env, store: StoreConfig)
    requires !Truthy(env.token) && !Truthy(env.slackToken)
    requires !Truthy(env.clientId) || !Truthy(env.clientSecret) || !Truthy(env.port)
    ensures NewController(env, store) == Fatal(1)
  {
  }
}
