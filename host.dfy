/**
 * The configuration value the embedding host hands to the widget. Only what the
 * gate and the screen read of it is kept: the token, the two places a user name can
 * come from, and whether the host supplied a `notify` capability.
 */
module Host {
  import opened Options

  datatype UserInfo = UserInfo(name: Option<string>)

  datatype AuthInfo = AuthInfo(user: Option<UserInfo>)

  datatype HostConfig = HostConfig(
    token: string,
    auth: Option<AuthInfo>,
    user: Option<UserInfo>,
    hasNotify: bool)
}
