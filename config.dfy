/** One entry of the account file `user.json`, keyed by account name. */
module Config {
  import opened Wrappers

  datatype User = User(link: Option<string>, accessToken: Option<string>, inviteCode: Option<string>)
}
