# telegram-security-bot in Dafny

A model of the core of a Raspberry Pi surveillance bot. A motion sensor
drives a camera. A Telegram bot alerts the subscribed users and delivers the
recorded videos to the admins. Access to the bot's commands is graded by
five roles (OPEN < SUB < MOD < ADMIN < OWNER) and granted through
activation tokens that expire after a number of days.

| file | module | source |
|---|---|---|
| role.dfy | `Roles` | role.py: the role enum, its values and comparisons |
| user.dfy | `Users` | user.py: the `User` record and its rendering |
| usertoken.dfy | `UserTokens` | usertoken.py: tokens, expiry, the once-only owner token |
| bot.dfy | `Bot` | bot.py: the authorization gate, the four command callbacks, alerts and video delivery |
| userservice.dfy | `UserServices` | userservice.py: the service object and `ban_user` |
| camera.dfy | `Cameras` | camera.py: the recording guard, video names and the conversion command |
| capture.dfy | `Capture` | the recorders' effects on camera and bot, and the rule that recordings never overlap |
| controller.dfy | `Controller` | controller.py: the motion, debounce and maximum-length state machine |
| motion_detection_handler.dfy | `MotionDetectionHandler` | motionDetectionHandler.py: the earlier state machine |
| utils.dfy | `Utils` | utils.py `randomstr`, plus Option and decimal parsing |

How the model is built:

- **State.** Python objects whose fields change become Dafny classes with
  those fields and `modifies` clauses. The bot's dictionaries are `map`
  fields. The bot sends its Telegram messages to an `outbox` sequence
  instead of the network.
- **Time.** The current time is a parameter, in whole seconds; a day is
  86400 seconds.
- **Randomness.** The choices of `random.choices` are a parameter
  `pick: nat -> nat`. The value of a new token is a parameter too.
- **Motion.** `time.sleep(1)` followed by a read of `motion_active` is one
  tick. Each tick consumes the next element of a `seq<bool>` of motion
  readings. The controller's behaviour over a reading sequence is given by
  the function `Controller.Run`. `Controller.Controller.Timer` is proved to
  produce exactly that outcome.
- **Camera and bot, as seen from the recorders.** The recorders see them
  through three effects: start capture, alert, and stop-and-deliver.
  `Capture.Replay` checks an effect log against the camera's `is_recording`
  flag.

## Model

| member | source | states |
|---|---|---|
| Roles.Value | role.py:27 | the five roles carry the values 0..4 |
| Roles.FromValue | role.py:6-9 | the role built from a value in 0..4 has that value |
| Roles.ValueRoundTrip | role.py:27 | value and role determine each other: `Role(r.value) == r`, and distinct roles have distinct values |
| Roles.Rank | role.py:11-12 | the `rank` attribute equals the enum value |
| Roles.Less | role.py:14-17 | `a < b` compares the enum values (definition; its property is `Roles.LessOrAtLeast`) |
| Roles.AtLeast | role.py:19-22 | `a >= b` compares the enum values (definition; its properties are the next two rows) |
| Roles.LessOrAtLeast | role.py:14-22 | for any two roles exactly one of `a < b` and `a >= b` holds |
| Roles.AtLeastIsTotalOrder | role.py:19-22 | `>=` is reflexive, antisymmetric, transitive and total |
| Roles.MinMaxBound | role.py:29-30 | `Role.min` is OPEN, `Role.max` is OWNER, and every role lies between them |
| Roles.AdminAtLeastMod | role.py:35 | ADMIN >= MOD and not ADMIN < MOD |
| Roles.LowerName | user.py:12 | the lower-case role name has 3 to 5 lower-case letters |
| Roles.LowerNameInjective | user.py:12 | distinct roles print under distinct names |
| Users.PadRight | user.py:12 | a left-aligned field is the text followed by spaces up to the width, never truncated |
| Users.Repr | user.py:11-12 | the rendering is the name padded to 14, `" [ "`, the role name padded to 6, `" ]"` |
| Users.ReprExample | user.py:16-18 | `User(123, 'username', ADMIN)` renders as `username       [ admin  ]` |
| Utils.RandomStr | utils.py:9-10 | a random string has the requested length and only upper-case letters and digits, each the picked charset entry |
| Utils.IsNumeric | bot.py:141 | the validity argument is non-empty and all decimal digits (definition) |
| Utils.ParseNat | bot.py:146 | the number the validity argument denotes, most significant digit first (definition; its partner is the next row) |
| Utils.ParseShow | bot.py:141-146 | parsing the decimal rendering of n gives n back |
| UserTokens.IsValid | usertoken.py:28-29 | a token is valid strictly before its expiry instant (definition; its partner is the next two rows) |
| UserTokens.Make | usertoken.py:19-20 | a token created at `now` for d days is valid at instant t iff t - now < d days |
| UserTokens.ValidityWindow | usertoken.py:28-29 | a token is invalid at its expiry instant, and valid when created iff it was given a positive number of days |
| UserTokens.TokenClass.constructor | usertoken.py:11-15 | the owner flag starts false; the default value is 8 upper-case letters or digits |
| UserTokens.TokenClass.MakeDefault | usertoken.py:15 | a token built without a value carries the class default value, whatever its role or validity |
| UserTokens.TokenClass.OwnerToken | usertoken.py:22-26 | the first call yields an OWNER token for one day with the configured value; every later call yields nothing |
| UserTokens.OwnerTokenOnlyOnce | usertoken.py:22-26 | in one process only the first owner-token request succeeds, and that token is valid for one day only |
| UserTokens.SharedDefaultOverwrites | usertoken.py:15 | two default-valued tokens share one key, so storing both keeps only the second |
| Bot.Authorized | bot.py:192-204 | the gate: not banned, and either an OPEN command or a registered user of at least the required rank (definition; its properties are the next five rows) |
| Bot.BannedNeverAuthorized | bot.py:199-201 | a banned chat is refused at every level, OPEN included |
| Bot.OpenUnlessBanned | bot.py:204 | a chat that is not banned may always run OPEN commands |
| Bot.AuthorizedAboveOpen | bot.py:204 | above OPEN, authorized iff not banned, registered, and of at least the required role |
| Bot.AuthorizedDownward | bot.py:192-204 | authorization at a level implies authorization at every lower level |
| Bot.RegisteredAuthorizedExactly | bot.py:204 | a registered, unbanned user is authorized at exactly the levels their role dominates |
| Bot.CleanTokens | bot.py:206-211 | exactly the tokens still valid remain, under their own keys |
| Bot.FanOut | bot.py:213-222 | the loop over a dictionary sends the message once to every key and to no one else |
| Bot.TokenRequest | bot.py:122-147 | the checks of `/token` in source order, each refusing with its own message, else a grant of the option's role for the given days or 1 (definition; its properties are the next two rows) |
| Bot.TokenRequestGrantedIff | bot.py:122-147 | a token is granted iff the sender passes the ADMIN gate, names a known option for a role strictly below their own, and gives no validity or a numeric one |
| Bot.GrantedBelowRequester | bot.py:135-146 | a granted token is for a role strictly below the requester's, so never OWNER; it lasts the given days, 1 by default |
| Bot.SubTokensConsistent | bot.py:206-211 | purging tokens keeps the bookkeeping invariant |
| Bot.AdmitAsWritten | bot.py:87-88 | as written: the redeemer is in `admins` afterwards iff it already was or its new role is ADMIN or more; from ADMIN up its entry is the new record, below ADMIN any old entry keeps its stale record; every other id keeps its entry and record |
| Bot.DemotedAdminStaysAdmin | bot.py:84-88 | as written, an admin who redeems a lower token stays in `admins` while `users` records the lower role, so the admin map no longer follows the users' roles |
| Bot.Admit | bot.py:87-88 | corrected: the redeemer is in `admins` afterwards iff its new role is ADMIN or more, under its new record; no other entry changes |
| Bot.AdmitFollowsUsers | bot.py:84-88 | with the corrected admission, `admins` stays exactly the registered users whose current role is ADMIN or more, under the same records |
| Bot.RedeemConsistent | bot.py:77-88 | redeeming a stored token keeps the invariant: users under their chat id, `admins` exactly the users whose current role is ADMIN or more, at most one owner, and no owner while the owner token is live |
| Bot.SurveillanceBot.constructor | bot.py:38-48 | the bot starts with empty maps and the owner token, valid for one day, under its configured value |
| Bot.SurveillanceBot.Activate | bot.py:57-91 | refuses unauthorized chats; otherwise purges expired tokens and consumes a live token, registering the sender with its role and admitting it to `admins` by the corrected rule; keeps the invariant |
| Bot.SurveillanceBot.ShowUsers | bot.py:93-111 | the user list goes only to chats that pass the MOD gate and are in the admin map; every other chat is refused |
| Bot.SurveillanceBot.CreateToken | bot.py:113-149 | refuses with the message of the first failed check; otherwise stores one new token and leaves every other token unchanged |
| Bot.SurveillanceBot.Clear | bot.py:151-172 | for the owner: every other user is told their subscription ended, and the owner alone remains user and admin |
| Bot.TwoGrantsKeepBoth | bot.py:146-147 | with a fresh value per token, an owner who redeems the owner token and asks twice for `-s` holds both subscriber tokens, each for one day |
| Bot.SurveillanceBot.Alert | bot.py:174-179 | every registered user receives the movement alert exactly once |
| Bot.SurveillanceBot.SendSurveillanceVideo | bot.py:181-190 | no video means no message; otherwise every admin receives the video exactly once |
| UserServices.UserService.constructor | userservice.py:7-16 | the service starts with empty maps and one OWNER token |
| UserServices.UserService.CreateNewToken | userservice.py:19-21 | the new token is stored under its value; every other entry is unchanged |
| UserServices.UserService.BanUserAsWritten | userservice.py:26-29 | the user is popped but never added to the banned map; the lookup of line 29 raises |
| UserServices.UserService.BanUser | userservice.py:26-29 | the user moves from users to banned, filed under its own chat id (`self.banned[user.chat_id] = user`); every user stays filed under its chat id, and users and banned stay disjoint |
| Cameras.Camera.constructor | camera.py:9-16 | the camera starts idle, with video name `video` |
| Cameras.Camera.VideoPath | camera.py:32 | the returned path is folder, name and converted format (definition) |
| Cameras.Camera.ConvertCommand | camera.py:39-42 | the command converts the raw file into the video path and then deletes the raw file |
| Cameras.Camera.SetVideoName | camera.py:35-37 | a fresh 14-character random name unless videos are overwritten |
| Cameras.Camera.StartRecording | camera.py:18-24 | starting while recording changes nothing; otherwise the driver records into name plus raw format and the flag rises |
| Cameras.Camera.StopRecording | camera.py:26-33 | stopping while idle returns nothing; otherwise the driver stops, the conversion runs, the flag drops and the video path is returned |
| Cameras.RecordOnce | camera.py:18-42 | in one cycle the camera's log is driver start on the raw file, driver stop, then the command `MP4Box -add <raw> <returned path>; rm <raw>`: the conversion reads and deletes exactly the recorded file and writes the returned path |
| Capture.ReplayAppend | controller.py:84-119 | checking a concatenated effect log checks the first part, then the second from where it left the camera |
| Controller.Streak | controller.py:93-106 | the `inactive` counter after i ticks: reset by an active tick, raised by an inactive one, never above i |
| Controller.FirstReach | controller.py:96-111 | the first tick within the limit whose counter reaches the buffer, or one past the limit; no earlier tick reaches it |
| Controller.Run | controller.py:68-119 | the timer over a reading sequence: debounce stop, maximum-length stop and restart unless paused, or the horizon (definition; its properties are the lemmas below) |
| Controller.StreakIsTrailingInactive | controller.py:99-106 | the inactivity counter is the number of trailing inactive ticks |
| Controller.FirstReachIsFirst | controller.py:109-111 | the timer leaves at the first tick whose counter reaches the buffer |
| Controller.RunNeverOverlaps | controller.py:68-119 | the timer never starts a capture while one runs and never stops one that is not running; the log ends in the reported camera state |
| Controller.DebounceStopsAtFirstReach | controller.py:108-111 | when the counter first reaches the buffer within a session, the recording stops and nothing restarts |
| Controller.RunAtHorizon | controller.py:96-106 | readings that end inside a session change neither the camera nor the effect log |
| Controller.RunAtCap | controller.py:113-119 | after the maximum length the recording stops and a new one starts unless paused |
| Controller.CapRestartsIffNotPaused | controller.py:113-119 | at the cap the recording is stopped first; a new capture starts iff surveillance is not paused |
| Controller.PausedNeverRestarts | controller.py:118 | while paused the timer never starts a capture |
| Controller.ContinuousMotionNeverDebounces | controller.py:104-106 | with continuous motion the counter stays below any positive buffer |
| Controller.DebounceScenario | controller.py:96-111 | five active ticks then two quiet ones, with a 2-tick buffer: one stop, at tick 7 |
| Controller.MaxDurationScenario | controller.py:96-119 | motion in all 30 ticks, not paused: stop, restart, alert |
| Controller.Controller.constructor | controller.py:24-32 | the controller starts with no motion, surveillance paused and the camera idle |
| Controller.Controller.PauseUnpause | controller.py:36-49 | the flag is set either way; the result says whether it changed |
| Controller.Controller.MotionStateChange | controller.py:52-65 | a start edge with an idle camera and surveillance not paused starts, alerts and runs the timer; any other edge only sets the motion flag |
| Controller.Controller.StartRecording | controller.py:68-75 | starts the camera if it is idle, alerts, then behaves as `Run` from a recording camera |
| Controller.Controller.StopRecording | controller.py:80-87 | stops and delivers only when recording; the camera ends idle |
| Controller.Controller.Watch | controller.py:93-111 | the tick loop leaves at the first tick whose counter reaches the buffer; motion tracks the last reading |
| Controller.Controller.Timer | controller.py:89-119 | the effects, the remaining readings and the final flags are those of `Run` |
| MotionDetectionHandler.FirstActive | motionDetectionHandler.py:36-39 | the index of the first active reading within the limit, or the limit |
| MotionDetectionHandler.FirstActiveReachesBufferIff | motionDetectionHandler.py:36-42 | the check runs out its buffer iff every tick is inactive |
| MotionDetectionHandler.ActiveTickPreventsStop | motionDetectionHandler.py:38-39 | any active tick in the buffer keeps the recording running |
| MotionDetectionHandler.FirstActiveAt | motionDetectionHandler.py:36-39 | the check returns at the first active tick |
| MotionDetectionHandler.QuietBufferStops | motionDetectionHandler.py:36-42 | two quiet ticks with a 2-tick buffer run the buffer out |
| MotionDetectionHandler.MotionHandler.constructor | motionDetectionHandler.py:19-20 | no motion, not paused, camera idle |
| MotionDetectionHandler.MotionHandler.MotionStateChange | motionDetectionHandler.py:24-33 | a start edge sets motion and, with an idle camera, starts it and alerts once, whatever `paused` says; a stop edge clears motion and runs one check; no overlapping recordings |
| MotionDetectionHandler.MotionHandler.Check | motionDetectionHandler.py:35-42 | returns at the first active tick; after the whole buffer is inactive, stops and delivers if recording; no overlapping recordings |

## Left out

- Telegram I/O is left out: the updater, dispatcher, polling and the handler registrations of bot.py:16-36 and 54. Sent messages are appended to `outbox`; `send_video` is a `Video` message.
- The threads and `time.sleep` of controller.py and motionDetectionHandler.py are left out. Calls that start a thread run to completion in place. A motion edge that arrives while the timer runs is seen only as the next reading.
- The `_stop_recording` thread started at controller.py:115 may race the restart at controller.py:119. The model stops before it restarts.
- Controller.Controller.Timer, MotionDetectionHandler.MotionHandler.Check: when the reading sequence ends inside a session, the model ends there with the camera unchanged. This is the model's horizon, not a behaviour of the source.
- Controller.Run, Controller.Controller.Timer, Controller.Controller.StartRecording, Controller.Controller.MotionStateChange: require `MAX_VIDEO_LENGTH` > 0. With 0 the loop at controller.py:96 runs no tick, so controller.py:114-119 restarts at once. `_start_recording` and `_timer` then call each other without end, alerting each time, until Python's recursion limit. The model does not capture that case.
- UserTokens.Make: datetime's range is not modelled, so any number of days yields a token. In the source, usertoken.py:20 raises `OverflowError` when `timedelta(days=d)` has |d| > 999999999, or when the expiry falls outside years 1 to 9999. No token is then created, and `create_new_token` (userservice.py:19-21) stores nothing. UserServices.UserService.CreateNewToken and Bot.SurveillanceBot.CreateToken inherit this: the model stores a token where the source raises.
- Utils.IsNumeric: accepts ASCII digits only, whereas Python's `isnumeric` also accepts other Unicode numerals.
- Bot.SurveillanceBot.CreateToken: gives the token the parsed number of days. bot.py:146 passes the argument string itself, and `timedelta(days='5')` raises.
- Crashes in the source are left out; the model follows the evident intent at each:
  - bot.py:36 misspells `dispatcher`.
  - bot.py:222 sends to an undefined `chat_id` instead of `user`.
  - controller.py:17 passes a callback that `SurveillanceBot.__init__` does not accept.
  - controller.py:74 passes arguments to `alert`, which takes none.
  - camera.py:3 imports `get_abspath` and `delete_file`, which utils.py does not define.
- Configuration that config.py does not define, although the core reads it:
  - `TOKEN_OPTIONS`, `VIDEO_FOLDER`, `OVERRIDE_VIDEO` and `BUFFER_TIME_SECONDS` are constructor arguments.
  - `OPEN_ROLE`, `MOD_ROLE`, `ADMIN_ROLE` and `OWNER_ROLE` are fixed to the roles OPEN, MOD, ADMIN and OWNER.
  - `ROLE_RANKING` and `ROLE_TO_RANK` are taken to map each role to its enum value, so rank comparisons compare values and `create_new_token` receives the role itself.
  - `REQUEST_TOKENS_ENABLED` (bot.py:51) is stored by the source but never consulted, so it is left out.
- The bodiless stubs `remove_token`, `unban_user` and `activate_token` (userservice.py:23-35) are left out.
- `rcwl_0516.py` (the GPIO sensor driver) is left out; its edges are the `isMotionStart` arguments.
- `payload.py` is a record with no behaviour and is left out.
- `shell_cmd`, `timestring` and `basename` of utils.py wrap the shell, the clock and `os.path`, so they are left out. Shell commands appear as `Shell` effects of the camera.
- Logging, `print` and the `no_detection_timeframe` placeholders are left out.
- Cameras.Camera: the PiCamera driver and its resolution are left out; driver calls are `DriverStart` and `DriverStop` effects.

## Findings

| source | as written | input that shows it | evidently intended | confidence | as-written member | corrected member |
|---|---|---|---|---|---|---|
| usertoken.py:15, bot.py:146-147 | the default `value` is computed once, when the class body runs, so every token created without a value gets the same value | two `/token -s` requests in one process: the second token overwrites the first under the same key, and both invitations are the same string | a fresh random value per token | not executed | UserTokens.SharedDefaultOverwrites | Bot.SurveillanceBot.CreateToken |
| bot.py:84-88 | `users[chat_id]` is overwritten on every activation, but `admins` is only ever added to | an admin redeems a `-s` token: `users` records SUB, yet the chat stays in `admins` and keeps receiving every video (bot.py:189) | the admin entry follows the redeemed role: added from ADMIN up, removed below | not executed | Bot.DemotedAdminStaysAdmin | Bot.SurveillanceBot.Activate |
| userservice.py:29 | `self.banned[user.chat_id]` only looks the key up | `ban_user(id)` for a registered user: the user is removed from `users`, the lookup raises KeyError, and the user ends up in neither map | `self.banned[user.chat_id] = user` | not executed | UserServices.UserService.BanUserAsWritten | UserServices.UserService.BanUser |
