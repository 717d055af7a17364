/**
 * The widget's entry component: picks the effective configuration, opens the gate only
 * on the exact access token, resolves the display name, and mounts the main screen only
 * behind an open gate (otherwise only the configuration tester shows).
 */
module Gate {
  import opened Options
  import opened Host
  import Screen

  /** The one token that opens the gate. */
  const AccessToken := "NICORIVERA"

  /** `localConfig ?? config`: the configuration applied from the tester when there is one,
      the host's otherwise. */
  function EffectiveConfig(local: Option<HostConfig>, prop: Option<HostConfig>): (r: Option<HostConfig>)
    ensures r == local || r == prop
    ensures r.Some? <==> local.Some? || prop.Some?
    ensures local.Some? ==> r == local
  {
    if local.Some? then local else prop
  }

  /** `effectiveConfig?.token === "NICORIVERA"`. */
  predicate IsOpen(eff: Option<HostConfig>) {
    eff.Some? && eff.value.token == AccessToken
  }

  /** `auth?.user?.name`: present only when each link of the chain is. */
  function AuthName(eff: Option<HostConfig>): Option<string> {
    if eff.Some? && eff.value.auth.Some? && eff.value.auth.value.user.Some?
    then eff.value.auth.value.user.value.name else None
  }

  /** `user?.name`: present only when each link of the chain is. */
  function ProfileName(eff: Option<HostConfig>): Option<string> {
    if eff.Some? && eff.value.user.Some? then eff.value.user.value.name else None
  }

  /** The display name: the auth user's name, else the user's name, else the anonymous
      placeholder. `??` only skips an absent name, so an empty name is kept. */
  function UserName(eff: Option<HostConfig>, anonymous: string): (r: string)
    ensures AuthName(eff).Some? ==> r == AuthName(eff).value
    ensures AuthName(eff).None? && ProfileName(eff).Some? ==> r == ProfileName(eff).value
    ensures AuthName(eff).None? && ProfileName(eff).None? ==> r == anonymous
  {
    match eff
    case None => anonymous
    case Some(c) =>
      match (c.auth, c.user)
      case (Some(AuthInfo(Some(UserInfo(Some(n))))), _) => n
      case (_, Some(UserInfo(Some(n)))) => n
      case _ => anonymous
  }

  /** What the entry component renders. */
  datatype View = Tester | Main(config: HostConfig, userName: string)

  /** One render: the main screen with the effective configuration exactly when the gate is open,
      the tester alone otherwise (an absent configuration included). */
  function Render(local: Option<HostConfig>, prop: Option<HostConfig>, anonymous: string): (v: View)
    ensures v.Main? <==> IsOpen(EffectiveConfig(local, prop))
    ensures v.Main? ==> v.config.token == AccessToken
                        && Some(v.config) == EffectiveConfig(local, prop)
                        && v.userName == UserName(EffectiveConfig(local, prop), anonymous)
  {
    var eff := EffectiveConfig(local, prop);
    if eff.Some? && eff.value.token == AccessToken then Main(eff.value, UserName(eff, anonymous))
    else Tester
  }

  /** Without any configuration the gate stays shut. */
  lemma NoConfigIsRejected(anonymous: string)
    ensures Render(None, None, anonymous) == Tester
  {
  }

  /** Once a configuration has been applied, the host's one no longer matters: the gate is open
      exactly when the applied token is the access token. */
  lemma AppliedConfigDecides(cfg: HostConfig, prop: Option<HostConfig>, anonymous: string)
    ensures Render(Some(cfg), prop, anonymous).Main? <==> cfg.token == AccessToken
  {
  }

  /** Once a local configuration exists, the host's prop no longer affects what renders. */
  lemma LocalShadowsProp(local: Option<HostConfig>, p: Option<HostConfig>, q: Option<HostConfig>,
                         anonymous: string)
    requires local.Some?
    ensures Render(local, p, anonymous) == Render(local, q, anonymous)
  {
  }

  /** The entry component: the host's configuration, and the tester's local copy of it. */
  class App {
    var config: Option<HostConfig>
    var localConfig: Option<HostConfig>

    /** `useState(config)`: the local configuration starts as the host's. */
    constructor (config: Option<HostConfig>)
      ensures this.config == config && localConfig == config
    {
      this.config := config;
      localConfig := config;
    }

    /** The host renders the component again with a new prop. `useState` ignores it, so the local
        configuration stays; the new prop matters only while no local configuration exists. */
    method HostRender(newProp: Option<HostConfig>)
      modifies this
      ensures config == newProp && localConfig == old(localConfig)
      ensures old(localConfig).Some? ==>
                forall anonymous :: Render(localConfig, config, anonymous) == Render(old(localConfig), old(config), anonymous)
      ensures old(localConfig).None? ==>
                forall anonymous :: Render(localConfig, config, anonymous).Main? <==> IsOpen(newProp)
    {
      config := newProp;
    }

    /** The tester's `onApply`, which exists only while the gate is closed: the applied
        configuration replaces the local one, so the gate is re-decided by the applied token alone. */
    method ApplyConfig(cfg: HostConfig)
      requires !IsOpen(EffectiveConfig(localConfig, config))
      modifies this
      ensures localConfig == Some(cfg) && config == old(config)
      ensures forall anonymous :: Render(localConfig, config, anonymous).Main? <==> cfg.token == AccessToken
    {
      localConfig := Some(cfg);
    }

    /** The render at which the gate is first open (or any render while it is closed): a closed
        gate constructs no screen; an open one constructs a fresh screen over the effective
        configuration and display name. Later renders with the gate still open go through `Rerender`. */
    method Mount(anonymous: string, screenTunnel: string, hookTunnel: string)
      returns (screen: Screen.AgentScreen?)
      ensures (screen == null) <==> Render(localConfig, config, anonymous).Tester?
      ensures screen != null ==>
                fresh(screen) && fresh(screen.chat) && screen.Valid()
                && Render(localConfig, config, anonymous) == Main(screen.config, screen.userName)
                && screen.tunnelId == screenTunnel && !screen.showDelayNotice && screen.inFlight == None
                && screen.chat.messages == [] && screen.chat.input == "" && !screen.chat.busy
                && screen.chat.error == None && screen.chat.tunnelId == hookTunnel
    {
      var v := Render(localConfig, config, anonymous);
      if v.Tester? {
        return null;
      }
      screen := new Screen.AgentScreen(v.config, v.userName, screenTunnel, hookTunnel);
    }

    /** A render while the gate stays open: the screen already mounted is kept, with its hook
        state, and receives the current effective configuration and display name as props. */
    method Rerender(screen: Screen.AgentScreen, anonymous: string)
      requires screen.Valid()
      requires Render(localConfig, config, anonymous).Main?
      modifies screen
      ensures screen.Valid()
      ensures Render(localConfig, config, anonymous) == Main(screen.config, screen.userName)
      ensures Some(screen.config) == EffectiveConfig(localConfig, config)
      ensures screen.tunnelId == old(screen.tunnelId) && screen.showDelayNotice == old(screen.showDelayNotice)
      ensures screen.inFlight == old(screen.inFlight)
    {
      var v := Render(localConfig, config, anonymous);
      screen.ReceiveProps(v.config, v.userName);
    }
  }

  /** A host that first passes nothing and later an open configuration, then another open one
      that carries `notify`: the screen mounted in between receives the later configuration, so
      the delayed notice shows. */
  method LateHostConfigReachesScreen(anonymous: string) {
    var h1 := HostConfig(AccessToken, None, None, false);
    var h2 := HostConfig(AccessToken, None, Some(UserInfo(Some("Ana"))), true);
    var app := new App(None);
    app.HostRender(Some(h1));
    var screen := app.Mount(anonymous, "t-screen", "t-hook");
    assert screen != null;
    app.HostRender(Some(h2));
    app.Rerender(screen, anonymous);
    assert screen.config == h2 && screen.userName == "Ana";
    screen.HandleDelayNotify();
    assert screen.showDelayNotice;
  }
}
