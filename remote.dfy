/**
 * The remote game service as an abstract interface: the calls the bot
 * makes, and a mock that answers every call. HTTP, headers and JSON are
 * not modelled; a response is its status bit plus the already-decoded
 * fields the bot reads.
 */
module Remote {
  import opened Int64
  import opened Wrappers

  /** Every request the bot sends, with the part of its body or cookie that varies. */
  datatype Call =
    | CheckIn(token: string)                              // POST post-check-in
    | GetMining(token: string)                            // GET get-mining
    | ClaimGem(token: string)                             // POST post-claim-gem
    | GetTapEarn(token: string)                           // GET get-tap-earn
    | ConvertGem(token: string, encrypted: string)        // POST post-convert-gem {"encrypt": ...}
    | GetPremiumPick(token: string)                       // GET get-premium-pick
    | PostPremiumPick(token: string, packageName: string) // POST post-premium-pick {"packageName": ...}
    | GetListQuest(token: string)                         // GET get-list-quest
    | PostQuestReward(token: string, quest: I64)          // POST post-quest-reward {"quest": ...}
    | LoginTelegram(payload: string)                      // POST auth/login-telegram {"token": ...}
    | MiniappLogin(accessToken: string)                   // POST miniapp login {"token": ...}

  /** How a call ended: the request or the reading of its body failed, or a status came back (`ok` is HTTP 200). */
  datatype Status = Dropped | Answered(ok: bool)

  /** The integer fields of `get-tap-earn`'s `data` (the two `f32` fields play no part). */
  datatype TapData = TapData(numberEc: I32, level: I32, minEc: I32, numberTap: I64)
  datatype TapReply = TapReply(message: string, data: TapData)
  datatype Package = Package(name: string, canClaim: bool)
  datatype Quest = Quest(id: I64, status: string)
  /** The four quest categories of `get-list-quest`. */
  datatype QuestLists = QuestLists(daily: seq<Quest>, event: seq<Quest>, top: seq<Quest>, weekly: seq<Quest>)

  /**
   * A mock of the service: the status of every call, and the decoded body
   * of every successful read, keyed by the session token (by the payload
   * for the login exchange).
   */
  datatype Remote = Remote(
    status: Call -> Status,
    remainTime: string -> I64,
    tapEarn: string -> TapReply,
    premiumPicks: string -> seq<Package>,
    questLists: string -> QuestLists,
    accessToken: string -> string)

  /** What `Url::parse` makes of a link: not a URL, or a URL with or without a fragment. */
  datatype ParsedUrl = Invalid | Url(fragment: Option<string>)

  /** The library functions the bot calls into, left uninterpreted. */
  datatype Library = Library(
    parseUrl: string -> ParsedUrl,
    percentDecode: string -> Option<string>,
    base64: string -> string,
    rsaEncrypt: string -> string)

  /**
   * The errors a step returns: a failed request (`Transport`), the bot's
   * own `TapErr`, `LoginErr` and `GetMiningErr`, and the library errors of
   * URL parsing and percent-decoding.
   */
  datatype Error = Transport | TapErr | LoginErr | GetMiningErr | UrlErr | DecodeErr
}
