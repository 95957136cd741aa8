/** The access gate and account commands of bot.py. The four dictionaries of
    `SurveillanceBot` are fields of type `map`; every message the bot would
    hand to Telegram is appended to `outbox` instead. */
module Bot {
  import opened Roles
  import opened Users
  import opened UserTokens
  import opened Utils

  datatype Content = Text(text: string) | TokenCreated(role: Role, value: string) | Video(path: string)

  /** One outgoing Telegram message. */
  datatype Outgoing = Outgoing(chatId: int, content: Content)

  const UnauthorizedText := "Unauthorized!"
  const SubscribedText := "Subscribed!"
  const OptionsText := "Please use one of the options: -a for admin, -m for mod, -s for subscriber."
  const LowerRolesText := "You can only generate tokens for roles lower than your own."
  const NumericText := "If you want to provide a period of validity, please use numeric values only. Default is 1 day."
  const TerminatedText := "Your subscription was terminated."
  const MovementText := "Movement detected!"
  const UserListText := "List of users ..."

  /** `_is_authorized`: a banned id is refused; otherwise OPEN commands are
      allowed and every other level needs a registered user of at least
      that rank. */
  predicate Authorized(users: map<int, User>, banned: map<int, User>, chatId: int, level: Role) {
    chatId !in banned && (level == Open || (chatId in users && Rank(users[chatId].role) >= Rank(level)))
  }

  /** Bans override everything, including OPEN commands. */
  lemma BannedNeverAuthorized(users: map<int, User>, banned: map<int, User>, chatId: int)
    requires chatId in banned
    ensures forall level :: !Authorized(users, banned, chatId, level)
  {
  }

  /** A chat that is not banned may always run OPEN commands. */
  lemma OpenUnlessBanned(users: map<int, User>, banned: map<int, User>, chatId: int)
    requires chatId !in banned
    ensures Authorized(users, banned, chatId, Open)
  {
  }

  /** Above OPEN, authorization is exactly "not banned, registered, and of at
      least the required role". */
  lemma AuthorizedAboveOpen(users: map<int, User>, banned: map<int, User>, chatId: int, level: Role)
    requires level != Open
    ensures Authorized(users, banned, chatId, level) <==>
            chatId !in banned && chatId in users && AtLeast(users[chatId].role, level)
  {
  }

  /** Authorization is downward closed: authorized at `high` means
      authorized at every level `high` dominates. */
  lemma AuthorizedDownward(users: map<int, User>, banned: map<int, User>, chatId: int, high: Role, low: Role)
    requires Authorized(users, banned, chatId, high)
    requires AtLeast(high, low)
    ensures Authorized(users, banned, chatId, low)
  {
  }

  /** Registering `u` under its chat id makes that (unbanned) chat
      authorized at exactly the levels `u.role` dominates. */
  lemma RegisteredAuthorizedExactly(users: map<int, User>, banned: map<int, User>, u: User)
    requires u.chatId !in banned
    ensures forall level :: Authorized(users[u.chatId := u], banned, u.chatId, level) <==> AtLeast(u.role, level)
  {
  }

  /** `_clean_tokens`: keeps exactly the tokens still valid at `now`, under
      their own keys. */
  function CleanTokens(tokens: map<string, Token>, now: int): (live: map<string, Token>)
    ensures forall k :: k in live <==> k in tokens && IsValid(tokens[k], now)
    ensures forall k :: k in live ==> live[k] == tokens[k]
  {
    map k | k in tokens && IsValid(tokens[k], now) :: tokens[k]
  }

  /** `sent` delivers `content` once to every id of `ids` and to no one else. */
  predicate IsFanOut(sent: seq<Outgoing>, ids: set<int>, content: Content) {
    && |sent| == |ids|
    && (forall i :: 0 <= i < |sent| ==> sent[i].content == content && sent[i].chatId in ids)
    && (forall id :: id in ids ==> Outgoing(id, content) in sent)
    && (forall i, j :: 0 <= i < j < |sent| ==> sent[i].chatId != sent[j].chatId)
  }

  /** The loop over a dict shared by `_send_text_msg_to_lst` and
      `send_surveillance_video`: one message per key, in some order. */
  method FanOut(ids: set<int>, content: Content) returns (sent: seq<Outgoing>)
    ensures IsFanOut(sent, ids, content)
  {
    sent := [];
    var left := ids;
    while left != {}
      invariant left <= ids
      invariant |sent| + |left| == |ids|
      invariant forall i :: 0 <= i < |sent| ==> sent[i].content == content && sent[i].chatId in ids - left
      invariant forall x :: x in ids - left ==> Outgoing(x, content) in sent
      invariant forall i, j :: 0 <= i < j < |sent| ==> sent[i].chatId != sent[j].chatId
      decreases left
    {
      ghost var someMember := MemberOf(left);
      var next :| next in left;
      sent := sent + [Outgoing(next, content)];
      left := left - {next};
    }
  }

  datatype TokenDecision = Refused(reason: string) | Granted(role: Role, validFor: nat)

  /** The checks of `admin_create_token_command_callback`, in their order. */
  function TokenRequest(users: map<int, User>, banned: map<int, User>, options: map<string, Role>,
                        chatId: int, args: seq<string>): (d: TokenDecision)
  {
    if !Authorized(users, banned, chatId, Admin) then Refused(UnauthorizedText)
    else if |args| == 0 || args[0] !in options then Refused(OptionsText)
    else if !(Rank(users[chatId].role) > Rank(options[args[0]])) then Refused(LowerRolesText)
    else if |args| > 1 && !IsNumeric(args[1]) then Refused(NumericText)
    else Granted(options[args[0]], if |args| > 1 then ParseNat(args[1]) else 1)
  }

  /** A token is granted iff the requester passes the ADMIN gate, names a
      known option whose role is strictly below their own, and gives no
      validity or a numeric one. */
  lemma TokenRequestGrantedIff(users: map<int, User>, banned: map<int, User>, options: map<string, Role>,
                               chatId: int, args: seq<string>)
    ensures TokenRequest(users, banned, options, chatId, args).Granted? <==>
            && Authorized(users, banned, chatId, Admin)
            && |args| > 0 && args[0] in options
            && Less(options[args[0]], users[chatId].role)
            && (|args| > 1 ==> IsNumeric(args[1]))
  {
  }

  /** A granted token is for a role strictly below the requester's, hence
      never OWNER, and lasts the requested number of days (default 1). */
  lemma GrantedBelowRequester(users: map<int, User>, banned: map<int, User>, options: map<string, Role>,
                              chatId: int, args: seq<string>)
    requires TokenRequest(users, banned, options, chatId, args).Granted?
    ensures chatId in users
    ensures var d := TokenRequest(users, banned, options, chatId, args);
            && Less(d.role, users[chatId].role)
            && d.role != Owner
            && AtLeast(users[chatId].role, Admin)
            && (|args| > 1 ==> d.validFor == ParseNat(args[1]))
            && (|args| <= 1 ==> d.validFor == 1)
  {
  }

  predicate OwnerTokenLive(tokens: map<string, Token>, ownerValue: string) {
    ownerValue in tokens && tokens[ownerValue].role == Owner
  }

  /** The admin map is the registered users whose current role is ADMIN or
      more, each under the same record as in `users`. */
  predicate AdminsFollowUsers(users: map<int, User>, admins: map<int, User>) {
    && (forall id :: id in admins ==> id in users && AtLeast(users[id].role, Admin) && admins[id] == users[id])
    && (forall id :: id in users && AtLeast(users[id].role, Admin) ==> id in admins)
  }

  /** bot.py:87-88 as written: a redeemer of rank ADMIN or more is entered
      in `admins`; a redeemer of lower rank keeps any entry already there. */
  function AdmitAsWritten(admins: map<int, User>, u: User): (a: map<int, User>)
    ensures u.chatId in a <==> u.chatId in admins || AtLeast(u.role, Admin)
    ensures forall id :: id != u.chatId ==> (id in a <==> id in admins)
    ensures forall id :: id != u.chatId && id in a ==> a[id] == admins[id]
    ensures AtLeast(u.role, Admin) ==> a[u.chatId] == u
    ensures !AtLeast(u.role, Admin) && u.chatId in admins ==> a[u.chatId] == admins[u.chatId]
  {
    if AtLeast(u.role, Admin) then admins[u.chatId := u] else admins
  }

  /** As written, an admin who redeems a token of a lower role is demoted in
      `users` but stays in `admins`, and so keeps receiving the videos: the
      admin map no longer follows the users' roles. */
  lemma DemotedAdminStaysAdmin(users: map<int, User>, admins: map<int, User>, u: User)
    requires AdminsFollowUsers(users, admins)
    requires u.chatId in admins && !AtLeast(u.role, Admin)
    ensures u.chatId in AdmitAsWritten(admins, u)
    ensures !AdminsFollowUsers(users[u.chatId := u], AdmitAsWritten(admins, u))
  {
    assert u.chatId in users[u.chatId := u] && !AtLeast(users[u.chatId := u][u.chatId].role, Admin);
  }

  /** The evident intent of bot.py:87-88: the redeemer's admin entry follows
      the role of the token just redeemed. */
  function Admit(admins: map<int, User>, u: User): (a: map<int, User>)
    ensures u.chatId in a <==> AtLeast(u.role, Admin)
    ensures u.chatId in a ==> a[u.chatId] == u
    ensures forall id :: id != u.chatId ==> (id in a <==> id in admins)
    ensures forall id :: id != u.chatId && id in a ==> a[id] == admins[id]
  {
    if AtLeast(u.role, Admin) then admins[u.chatId := u] else admins - {u.chatId}
  }

  /** Registering a redeemer and admitting it keeps the admin map in step
      with the users' roles. */
  lemma AdmitFollowsUsers(users: map<int, User>, admins: map<int, User>, u: User)
    requires AdminsFollowUsers(users, admins)
    ensures AdminsFollowUsers(users[u.chatId := u], Admit(admins, u))
  {
    var users', admins' := users[u.chatId := u], Admit(admins, u);
    forall id | id in users' && AtLeast(users'[id].role, Admin)
      ensures id in admins'
    {
      if id != u.chatId {
        assert id in admins;
      }
    }
  }

  /** The bookkeeping invariant every command keeps. */
  predicate Consistent(users: map<int, User>, admins: map<int, User>, tokens: map<string, Token>, ownerValue: string) {
    // every token is stored under its own value
    && (forall k :: k in tokens ==> tokens[k].value == k)
    // the only OWNER token is the configured one
    && (forall k :: k in tokens && tokens[k].role == Owner ==> k == ownerValue)
    // users are stored under their chat id
    && (forall id :: id in users ==> users[id].chatId == id)
    && AdminsFollowUsers(users, admins)
    // at most one owner, and none while the owner token is still live
    && (forall a, b :: a in users && b in users && users[a].role == Owner && users[b].role == Owner ==> a == b)
    && (OwnerTokenLive(tokens, ownerValue) ==> forall id :: id in users ==> users[id].role != Owner)
  }

  /** Dropping tokens keeps the invariant. */
  lemma SubTokensConsistent(users: map<int, User>, admins: map<int, User>, tokens: map<string, Token>,
                            sub: map<string, Token>, ownerValue: string)
    requires Consistent(users, admins, tokens, ownerValue)
    requires forall k :: k in sub ==> k in tokens && sub[k] == tokens[k]
    ensures Consistent(users, admins, sub, ownerValue)
  {
  }

  /** Consuming a stored token, registering its redeemer and admitting it
      keeps the invariant; in particular redeeming the owner token creates
      the only owner. */
  lemma RedeemConsistent(users: map<int, User>, admins: map<int, User>, tokens: map<string, Token>,
                         ownerValue: string, key: string, chatId: int, name: string)
    requires Consistent(users, admins, tokens, ownerValue)
    requires key in tokens
    ensures var u := User(chatId, name, tokens[key].role);
            Consistent(users[chatId := u], Admit(admins, u), tokens - {key}, ownerValue)
  {
    var u := User(chatId, name, tokens[key].role);
    var users' := users[chatId := u];
    AdmitFollowsUsers(users, admins, u);
    if u.role == Owner {
      assert key == ownerValue;
      assert OwnerTokenLive(tokens, ownerValue);
      assert !OwnerTokenLive(tokens - {key}, ownerValue);
    }
  }

  class SurveillanceBot {
    var users: map<int, User>
    var admins: map<int, User>
    var banned: map<int, User>
    var tokens: map<string, Token>
    var outbox: seq<Outgoing>

    /** `cfg.OWNER_ACTIVATION_TOKEN` and `cfg.TOKEN_OPTIONS`. */
    const ownerActivationToken: string
    const tokenOptions: map<string, Role>

    ghost predicate Valid()
      reads this
    {
      Consistent(users, admins, tokens, ownerActivationToken)
    }

    /** `__init__` without the Telegram wiring: empty maps and the owner
        token, valid for one day from `now`. */
    constructor(ownerActivationToken: string, tokenOptions: map<string, Role>, now: int)
      ensures Valid()
      ensures this.ownerActivationToken == ownerActivationToken && this.tokenOptions == tokenOptions
      ensures users == map[] && admins == map[] && banned == map[] && outbox == []
      ensures tokens == map[ownerActivationToken := Make(Owner, 1, ownerActivationToken, now)]
    {
      this.ownerActivationToken := ownerActivationToken;
      this.tokenOptions := tokenOptions;
      users := map[];
      admins := map[];
      banned := map[];
      outbox := [];
      var ownerToken := Make(Owner, 1, ownerActivationToken, now);
      tokens := map[ownerToken.value := ownerToken];
    }

    /** `/activate <token>`: purge expired tokens, then consume a live token
        and register the sender with its role, admitting it to `admins`
        exactly when that role is ADMIN or more (see `Admit`). */
    method Activate(chatId: int, username: string, args: seq<string>, now: int)
      requires Valid()
      modifies this`users, this`admins, this`tokens, this`outbox
      ensures Valid()
      ensures !Authorized(old(users), banned, chatId, Open) ==>
                && users == old(users) && admins == old(admins) && tokens == old(tokens)
                && outbox == old(outbox) + [Outgoing(chatId, Text(UnauthorizedText))]
      ensures Authorized(old(users), banned, chatId, Open) ==>
                var live := CleanTokens(old(tokens), now);
                if |args| > 0 && args[0] in live then
                  var u := User(chatId, username, live[args[0]].role);
                  && tokens == live - {args[0]}
                  && users == old(users)[chatId := u]
                  && admins == Admit(old(admins), u)
                  && outbox == old(outbox) + [Outgoing(chatId, Text(SubscribedText))]
                else
                  tokens == live && users == old(users) && admins == old(admins) && outbox == old(outbox)
    {
      if !Authorized(users, banned, chatId, Open) {
        outbox := outbox + [Outgoing(chatId, Text(UnauthorizedText))];
        return;
      }
      SubTokensConsistent(users, admins, tokens, CleanTokens(tokens, now), ownerActivationToken);
      tokens := CleanTokens(tokens, now);
      if |args| > 0 && args[0] in tokens {
        RedeemConsistent(users, admins, tokens, ownerActivationToken, args[0], chatId, username);
        var token := tokens[args[0]];
        tokens := tokens - {args[0]};
        var user := User(chatId, username, token.role);
        users := users[chatId := user];
        admins := Admit(admins, user);
        outbox := outbox + [Outgoing(chatId, Text(SubscribedText))];
      }
    }

    /** `/users`: gated at MOD, then answered only for chats in `admins`. */
    method ShowUsers(chatId: int)
      modifies this`outbox
      ensures outbox == old(outbox) + [Outgoing(chatId, Text(
                if Authorized(users, banned, chatId, Mod) && chatId in admins then UserListText
                else UnauthorizedText))]
    {
      if !Authorized(users, banned, chatId, Mod) {
        outbox := outbox + [Outgoing(chatId, Text(UnauthorizedText))];
        return;
      }
      if chatId in admins {
        outbox := outbox + [Outgoing(chatId, Text(UserListText))];
      } else {
        outbox := outbox + [Outgoing(chatId, Text(UnauthorizedText))];
      }
    }

    /** `/token <option> [days]`: mint a token for a role strictly below the
        requester's. `value` is the fresh random value of the new token. */
    method CreateToken(chatId: int, args: seq<string>, now: int, value: string)
      requires Valid()
      modifies this`tokens, this`outbox
      ensures Valid()
      ensures match TokenRequest(users, banned, tokenOptions, chatId, args)
              case Refused(reason) =>
                tokens == old(tokens) && outbox == old(outbox) + [Outgoing(chatId, Text(reason))]
              case Granted(role, days) =>
                && tokens == old(tokens)[value := Make(role, days, value, now)]
                && outbox == old(outbox) + [Outgoing(chatId, TokenCreated(role, value))]
      ensures value !in old(tokens) && TokenRequest(users, banned, tokenOptions, chatId, args).Granted? ==>
                |tokens| == |old(tokens)| + 1 && forall k :: k in old(tokens) ==> k in tokens && tokens[k] == old(tokens)[k]
    {
      if !Authorized(users, banned, chatId, Admin) {
        outbox := outbox + [Outgoing(chatId, Text(UnauthorizedText))];
        return;
      }
      if |args| == 0 || args[0] !in tokenOptions {
        outbox := outbox + [Outgoing(chatId, Text(OptionsText))];
        return;
      }
      var role := tokenOptions[args[0]];
      if !(Rank(users[chatId].role) > Rank(role)) {
        outbox := outbox + [Outgoing(chatId, Text(LowerRolesText))];
        return;
      }
      if |args| > 1 && !IsNumeric(args[1]) {
        outbox := outbox + [Outgoing(chatId, Text(NumericText))];
        return;
      }
      var days := if |args| > 1 then ParseNat(args[1]) else 1;
      var token := Make(role, days, value, now);
      tokens := tokens[token.value := token];
      outbox := outbox + [Outgoing(chatId, TokenCreated(role, token.value))];
    }

    /** `/clear`: drop every user and admin except the owner issuing it,
        telling the others their subscription ended. */
    method Clear(chatId: int)
      requires Valid()
      modifies this`users, this`admins, this`outbox
      ensures Valid()
      ensures !Authorized(old(users), banned, chatId, Owner) ==>
                && users == old(users) && admins == old(admins)
                && outbox == old(outbox) + [Outgoing(chatId, Text(UnauthorizedText))]
      ensures Authorized(old(users), banned, chatId, Owner) ==>
                && chatId in old(users) && old(users)[chatId].role == Owner
                && users == map[chatId := old(users)[chatId]]
                && admins == map[chatId := old(users)[chatId]]
                && |outbox| >= |old(outbox)| && outbox[..|old(outbox)|] == old(outbox)
                && IsFanOut(outbox[|old(outbox)|..], old(users).Keys - {chatId}, Text(TerminatedText))
    {
      if !Authorized(users, banned, chatId, Owner) {
        outbox := outbox + [Outgoing(chatId, Text(UnauthorizedText))];
        return;
      }
      var owner := users[chatId];
      users := users - {chatId};
      var sent := FanOut(users.Keys, Text(TerminatedText));
      outbox := outbox + sent;
      admins := map[];
      users := map[];
      admins := admins[chatId := owner];
      users := users[chatId := owner];
    }

    /** `alert`: tell every registered user that motion was seen. */
    method Alert()
      modifies this`outbox
      ensures |outbox| >= |old(outbox)| && outbox[..|old(outbox)|] == old(outbox)
      ensures IsFanOut(outbox[|old(outbox)|..], users.Keys, Text(MovementText))
    {
      var sent := FanOut(users.Keys, Text(MovementText));
      outbox := outbox + sent;
    }

    /** `send_surveillance_video`: nothing for a missing or empty path,
        otherwise the video goes to every key of `admins`. */
    method SendSurveillanceVideo(video: Option<string>)
      modifies this`outbox
      ensures (video == None || video == Some("")) ==> outbox == old(outbox)
      ensures video.Some? && video.value != "" ==>
                && |outbox| >= |old(outbox)| && outbox[..|old(outbox)|] == old(outbox)
                && IsFanOut(outbox[|old(outbox)|..], admins.Keys, Video(video.value))
    {
      if video == None || video.value == "" {
        return;
      }
      var sent := FanOut(admins.Keys, Video(video.value));
      outbox := outbox + sent;
    }
  }

  /** With a fresh value per token, two subscriber tokens minted one after
      the other by the owner are both kept: the owner redeems the owner
      token, then asks twice for `-s`. */
  method TwoGrantsKeepBoth(ownerValue: string, now: int, v1: string, v2: string) returns (bot: SurveillanceBot)
    requires v1 != v2
    ensures v1 in bot.tokens && bot.tokens[v1] == Make(Sub, 1, v1, now)
    ensures v2 in bot.tokens && bot.tokens[v2] == Make(Sub, 1, v2, now)
  {
    bot := new SurveillanceBot(ownerValue, map["-s" := Sub], now);
    bot.Activate(1, "owner", [ownerValue], now);
    bot.CreateToken(1, ["-s"], now, v1);
    bot.CreateToken(1, ["-s"], now, v2);
  }
}
