# Athene Network bot — a Dafny model of its decision and sequencing logic

The bot keeps a set of accounts of the Athene Network mini-app busy:
- at start-up, for every account in `user.json`, it makes sure the account has a session token, logging in with the account's Telegram link when it has none;
- it then checks in and claims mined gems once;
- it registers three recurring jobs: a 12-hour check-in, a 6-hour claim followed by the premium picks and the quests, and a 2-minute tap-to-gem conversion;
- finally it writes the accounts back with their tokens and starts the scheduler.

This project models that logic with the network, the clock and the foreign libraries taken out.

- **The service** is a mock value (`Remote.Remote`). It gives:
  - the status of every call: the request failed (`Dropped`), or a status came back (`Answered(ok)`, where `ok` means HTTP 200);
  - the already-decoded body of every successful read.
- **A step's result** is a `Trace.Run`: the effects in order, then the outcome.
  - The effects are requests sent, pauses taken, the file written and the scheduler started.
  - The outcome is a value, an error returned with `?`, or a panic from a failing `unwrap`.
- **Integer arithmetic** is written out where Rust's semantics matter:
  - the `i64` subtraction wraps;
  - `/ 100` truncates toward zero;
  - `| 0` is a bitwise OR on the 64-bit two's-complement pattern, proved to be the identity.
- **`concat_str`'s signature** is a decimal rendering, proved to be readable back into its three numbers.
- **The link's fragment** is taken apart with a model of Rust's `str::split`, proved to round-trip with joining.
- **Each loop of the source is a method proved against a specification function:**
  - the batch claims (`Batch.ClaimSelected`, `Batch.ClaimPremiumPick`, `Batch.ClaimDailyQuest`);
  - `main`'s account loop (`Startup.RunLoop`, one pass per account through `Startup.Visit` and `Startup.Pass`, over a `Scheduler` class whose `jobs` field they append to). These three are written for any first part of a pass and proved against `Startup.Loop`; `Startup.Startup` runs them with the real one, `Startup.Body` (the token step, then one check-in and one claim).
- **A job's body** has no loop. It is a straight sequence of awaited steps, written step by step as `Jobs.RunJob` and proved equal to `Jobs.JobRun`, the function the job lemmas are about.
- **What the source promises** is proved about those functions:
  - which claims are sent, in which order and with which payload;
  - when a conversion or a gem claim happens;
  - what the login exchanges;
  - that the outcome of start-up does not depend on the map's iteration order.

Modules, in dependency order:
- `Wrappers` and `Int64`;
- `Decimal` and `Text`;
- `Config` (the `user.json` entry);
- `Remote` (calls, statuses, the mock, the library functions, errors);
- `Trace`;
- `Session` (check-in, claim, conversion);
- `Batch` (premium picks and quests);
- `Login`;
- `Jobs` (the three jobs);
- `Startup` (`main`).

Behaviour worth noting:
- **Login failure.** A failed login, or an account without a link, panics through `unwrap` (src/main.rs:494-496). That aborts the whole start-up: later accounts are not visited, the file is not written and the scheduler never starts.
- **Job overlap.** Each job is a plain repeated job of the scheduler (src/main.rs:521-609). Nothing stops a run of a job from starting while its previous run is still going.
- **Start-up check-in and claim.** Besides registering the jobs, the loop itself checks in and claims once for every account (src/main.rs:511-519), and drops their errors.

## Model

| member | source | states |
|---|---|---|
| Int64.WrappingSub | src/main.rs:210 | `now - number_tap` on `i64` is the exact difference when it fits, and otherwise differs from it by exactly 2^64 |
| Int64.Div100 | src/main.rs:210 | `/ 100` truncates toward zero: the remainder has the dividend's sign and is smaller than 100 |
| Int64.Div100Unique | src/main.rs:210 | the truncated quotient is the only number with that remainder property |
| Int64.Div100VersusEuclid | src/main.rs:210 | truncation and Dafny's Euclidean division differ exactly on negative non-multiples of 100, by one |
| Int64.Or | src/main.rs:210 | the bitwise-or operator is the OR of the 64-bit two's-complement patterns, read back as an `i64`; OR-ing with 0 leaves every `i64` unchanged |
| Int64.OrBits | src/main.rs:210 | the bitwise OR of two `width`-bit numbers fits in `width` bits |
| Decimal.IntToDecimal | src/main.rs:44-47 | `{}` of an integer starts with `-` exactly when the integer is negative, is otherwise all digits, and has no leading zero (a lone `0` aside) |
| Decimal.IntToDecimalParse | src/main.rs:44-47 | a rendered integer followed by a non-digit is read back as the same integer with the rest untouched |
| Session.Signature | src/main.rs:44-47 | the signature `"{number_tap}-{ts}-{total_tap}"` is read back into all three numbers, negative ones included |
| Text.Split | src/main.rs:402-403 | `split(c)` always yields at least one piece |
| Text.JoinSplit | src/main.rs:402-403 | joining the pieces of `split(c)` with `c` gives the string back, and no piece contains `c` |
| Text.SplitJoin | src/main.rs:402-403 | splitting what was joined from separator-free pieces gives those pieces back |
| Text.SplitFirst | src/main.rs:402-403 | the first piece is the text before the first `c`; the other pieces are those of the text after it, so when `c` occurs the second piece is the text between the first `c` and the next one |
| Text.Before | src/main.rs:402 | the text before the first `c` is a prefix that holds no `c` and is followed by `c` whenever `c` occurs |
| Trace.Swallow | src/main.rs:529-603 | `.map_err(log).ok()` keeps the effects, never returns an error and lets a panic through |
| Session.PostCheckIn | src/main.rs:181-206 | one check-in request; any status counts as success, and only a failed request is an error |
| Session.GetMiningTime | src/main.rs:119-145 | the cooldown is read exactly from a 200 answer; another status is `GetMiningErr` and a failed request a transport error |
| Session.PostClaimGem | src/main.rs:147-179 | the claim is sent exactly when the cooldown query answered 200 with a remaining time of at most 0, after a 1 s pause; with a positive remaining time nothing more is sent and the result is `Ok`; a failed query is returned unchanged and nothing is claimed; once sent, the claim succeeds when its request is answered and is a transport error when it fails |
| Session.ReadTapEarn | src/main.rs:49-86 | the tap state is read exactly from a 200 answer whose message is `"ok"`; any other answer is `TapErr` |
| Session.TotalTap | src/main.rs:210 | without overflow, the total tap expression (difference, division by 100, OR with 0, minus 100) is the truncated quotient minus 100 |
| Session.EligibleElapsed | src/main.rs:210-213 | the conversion threshold in elapsed milliseconds: at least `100 * (min_ec + 100)` for a non-negative wrapped difference (equality converts), more than `100 * (min_ec + 99)` for a negative one |
| Session.PostConvertGem | src/main.rs:208-226 | the conversion request is sent exactly when the tap read succeeded and the tap count reaches `min_ec`, after a 1 s pause; its payload is the encrypted signature of the same count and the second clock reading; when the count falls short nothing more is sent and the result is `Ok`; a failed read is `TapErr` or a transport error and sends nothing more; once sent, the conversion succeeds when its request is answered and is a transport error when it fails |
| Batch.ClaimsExact | src/main.rs:255-276 | exactly the selected items are claimed, each once and in list order: one claim per selected item, at the position after the claims of the selected items before it |
| Batch.Paced | src/main.rs:258-274 | a batch of claim requests either ends normally or panics; it never returns an error |
| Batch.PacedAllSent | src/main.rs:258-274 | when every request goes through, each call is sent in order and followed by its pause |
| Batch.PacedAllSentCalls | src/main.rs:258-274 | when every request goes through, the requests sent are exactly the calls |
| Batch.PacedFirstDropped | src/main.rs:258-274 | the first failing request panics the batch right after it is sent, and nothing after it is sent |
| Batch.PacedSendsOnly | src/main.rs:258-274 | a batch sends only its own calls and sleeps only its own pause |
| Batch.ClaimSelected | src/main.rs:255-276 | the claim loop's effects and outcome are those of the paced batch of the selected items' claims |
| Batch.PremiumPickRun | src/main.rs:229-279 | the listing is sent first; the only error is a failed listing request (a failed claim panics instead); a listing with another status than 200 ends normally with nothing claimed |
| Batch.ClaimPremiumPick | src/main.rs:229-279 | `claim_premium_pick` lists the packages, then claims them as specified by `PremiumPickRun` |
| Batch.PremiumPickClaims | src/main.rs:245-276 | on a 200 listing and with no failing request, the claims are exactly the `canClaim` packages, in array order, each under its own name; any other listing claims nothing |
| Batch.AllQuestClaimsByCategory | src/main.rs:301-391 | the quest claims are the claims of daily, event, top and weekly, one category after the other |
| Batch.QuestClaimPosition | src/main.rs:298-391 | every claimable quest is claimed with its own `id`, after all claims of earlier categories and of earlier quests of its own category |
| Batch.QuestClaimCount | src/main.rs:298-391 | there are as many quest claims as claimable quests over the four categories |
| Batch.DailyQuestClaims | src/main.rs:282-394 | on a 200 listing and with no failing request, every quest claim is sent and the run ends normally; any other listing claims nothing |
| Batch.DailyQuestRun | src/main.rs:282-394 | the listing is sent first; the only error is a failed listing request (a failed claim panics instead); a listing with another status than 200 ends normally with nothing claimed |
| Batch.ClaimDailyQuest | src/main.rs:282-394 | the four category loops, stopping at the first panic, do what `DailyQuestRun` specifies |
| Login.FragmentBlob | src/main.rs:402-403 | `split('&').nth(0)` then `split('=').nth(1)` is the text between the first `=` and the next `=` in the part before the first `&`, and there is none when that part has no `=` |
| Login.PayloadText | src/main.rs:405 | the payload text's `&`-pieces are those of the decoded blob followed by the single piece `invite_code=` and the invite code (when the code holds no `&`); for a blob without `&`, the text before the first `&` is the blob and the text after it is that pair |
| Login.Prepare | src/main.rs:399-405 | no fragment is `LoginErr`; a first fragment piece without `=` panics; otherwise the payload is `base64(decode(blob) + "&invite_code=" + invite_code)` |
| Login.Exchange | src/main.rs:406-443 | the miniapp login is sent exactly when the first request answered 200; a token comes back exactly when both answer 200, and it is the first answer's `accessToken`; a failed request is a transport error and a status other than 200 is `LoginErr`, for either request |
| Login.Login | src/main.rs:397-444 | `login` is the two requests on the prepared payload; when no payload can be prepared, nothing is sent |
| Login.LoginToken | src/main.rs:397-444 | a token exactly when a payload is prepared and both requests answer 200, and then it is the `accessToken` of the first answer |
| Jobs.AccountJobs | src/main.rs:521-609 | three jobs per account, all on its name and token: a 12 h check-in after 1 s, a 6 h claim after 3 s, a 2 min conversion after 5 s |
| Jobs.JobRun | src/main.rs:526-603 | a job's body starts with its pause and never returns an error (every step's error is dropped); only the claim job can panic; the check-in job is its pause then `post_check_in` |
| Jobs.ConvertJobRun | src/main.rs:592-603 | the conversion job is its pause, then one `post_convert_gem` whose error is dropped, and it always finishes |
| Jobs.RunJob | src/main.rs:526-603 | the closure's body, step by step, is `JobRun` |
| Jobs.RunClaimSteps | src/main.rs:550-579 | the six-hour job's three steps, run one after the other with each error dropped and a panic ending the job, are `ClaimSteps` |
| Jobs.ClaimJobSequence | src/main.rs:550-579 | the 6 h job runs claim, premium picks and quests in that order; the premium listing is always sent, whatever the claim did, and the quest listing is sent exactly when the premium batch did not panic |
| Jobs.PremiumPickSends | src/main.rs:229-280 | the premium-pick run sends only its listing and premium-pick claims |
| Startup.Scheduler.constructor | src/main.rs:482 | a new scheduler holds no jobs and is not started |
| Startup.Scheduler.Add | src/main.rs:521-543 | adding a job appends it and changes nothing else |
| Startup.Scheduler.Start | src/main.rs:613 | starting the scheduler keeps its jobs |
| Startup.Resolve | src/main.rs:491-498 | an account with a token is kept unchanged; otherwise it logs in with its link and its invite code (`"null"` when missing) and gets the login's token with `link` and `invite_code` unchanged; a missing link or a failed login panics |
| Startup.AccountStartup | src/main.rs:490-519 | after the token step, one check-in and one claim on the account's token; after a panic, nothing more |
| Startup.AccountStartupIo | src/main.rs:490-519 | one pass sends requests and pauses only |
| Startup.Loop | src/main.rs:490-609 | the loop over the accounts in a given order up to the first panic: only visited accounts reach `copy_users`, and without a panic three jobs are registered per visited account |
| Startup.StartupRun | src/main.rs:479-613 | without a panic, the last two things `main` does are writing `copy_users` and starting the scheduler; after a panic nothing follows the loop |
| Startup.Pass | src/main.rs:490-609 | the loop body keeps the effects of the pass's first part and registers the account's three jobs, on the resolved token, exactly when that part gets through; otherwise no job is registered |
| Startup.Visit | src/main.rs:490-609 | one pass of the loop is one more step of `Loop`: the copy gains the account and the jobs grow by its block exactly when the pass gets through |
| Startup.RunLoop | src/main.rs:490-609 | the loop takes every account once, in an order of its own choosing, and stops at the first pass that does not get through; what it leaves is `Loop` for the order taken |
| Startup.Startup | src/main.rs:479-613 | `main` visits every account once in some order and matches `StartupRun` for that order; it panics on the first account that fails its token step, and the scheduler starts exactly when no account panicked |
| Startup.LoopPanics | src/main.rs:490-498 | the loop panics exactly when some visited account's pass does not get through |
| Startup.LoopCopy | src/main.rs:501 | without a panic, `copy_users` holds exactly the visited accounts, each as its pass left it |
| Startup.LoopJobs | src/main.rs:504-609 | without a panic, three jobs per visited account, block by block in visiting order |
| Startup.LoopCopyAll | src/main.rs:490-501 | when every account is visited and nothing panics, `copy_users` has every name |
| Startup.OrderLength | src/main.rs:490 | an order visiting every key once is as long as the map |
| Startup.SnapshotResolved | src/main.rs:491-501 | the snapshot holds exactly the accounts that get through their token step, each resolved |
| Startup.StartupPanics | src/main.rs:490-498 | whatever the iteration order, `main` panics exactly when some account fails its token step |
| Startup.StartupSnapshot | src/main.rs:501-613 | whatever the iteration order, without a panic the file is written once, with every account and its token, just before the scheduler starts |
| Startup.StartupIo | src/main.rs:490-613 | before the file write only requests and pauses happen; after a panic the file is never written and the scheduler never started |
| Startup.StartupJobs | src/main.rs:504-609 | without a panic, three jobs for every account, each block bound to that account's token in the snapshot |
| Startup.SnapshotStable | src/main.rs:491-498 | every account written back carries a token, so a restart on the written file logs no one in and keeps the same accounts |

## Left out

- HTTP, headers and URLs (src/utils.rs:52-83). Each request is a `Call` value, and each answer is a status bit plus the decoded fields the bot reads.
- JSON decoding and its `unwrap`s on field access. Answers arrive already decoded.
- The failure to read a body after any answer whose body the bot reads is folded into `Dropped`.
- URL parsing, percent-decoding, base64 and RSA-OAEP encryption (src/utils.rs:16-33). They are uninterpreted functions of `Remote.Library`. The randomness of RSA padding is therefore not represented: the same plaintext always encrypts to the same text.
- The system clock (src/utils.rs:39-46). The two readings one conversion takes are parameters (`Session.Clock`).
- Logging and the local-time string (`format_println`, `format_error`, `now`). They are output only.
- Reading and writing `user.json` (src/main.rs:463-476). The model keeps only the map handed to the writer, as the `WriteConfig` effect.
- The tokio scheduler's timing and concurrency, the `sleep` durations as real time, and the final 7-day sleep. Each job is a descriptor (interval and pause), plus one execution of its body (`Jobs.JobRun`). Repeated firing and overlap across executions are not modelled.
- The `f32` fields `number_gem` and `base_rate` of the tap state. They take part in no decision.
- The `i32` casts of `number_ec`, `level` and `min_ec` from JSON. The model takes them as already-decoded `i32` values.
- Answers depend only on the request (`Remote.Remote.status` is a function of the `Call`). Two identical requests in one run get the same answer, so the model cannot express one of two identical claims going through while the other fails: two claimable packages with the same name, or one quest id listed in two categories. No property here depends on the two answers differing.
- Int64.WrappingSub: models a release build, where `i64` overflow wraps. A debug build would panic instead.
- Scheduler errors: the `?` on `JobScheduler::new` and `sched.start()` (src/main.rs:482, 613), and the `unwrap`s on `Job::new_repeated_async` and `sched.add` (src/main.rs:540-543, 582-585, 606-609). The external scheduler is assumed not to fail.
- Batch.PremiumPickClaims: states the exact list of requests only when no claim request fails. When one fails, the run is described by `Batch.PacedFirstDropped`.
- Batch.DailyQuestClaims: states the exact list of requests only when no claim request fails. When one fails, the run is described by `Batch.PacedFirstDropped`.
- Startup.StartupJobs: states the jobs block by block in visiting order. The order of the blocks follows the map's unspecified iteration order.
