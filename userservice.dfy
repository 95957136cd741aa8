/** `UserService` of userservice.py: the same four maps as the bot, held by a
    service object. Only the constructor, `create_new_token` and `ban_user`
    have bodies in the source. */
module UserServices {
  import opened Roles
  import opened Users
  import opened UserTokens

  class UserService {
    var users: map<int, User>
    var admins: map<int, User>
    var banned: map<int, User>
    var tokens: map<string, Token>

    /** Every user is filed under its own chat id, and an identity is never
        both active and banned. */
    ghost predicate Valid()
      reads this
    {
      && (forall id :: id in users ==> users[id].chatId == id)
      && (forall id :: id in banned ==> banned[id].chatId == id)
      && users.Keys !! banned.Keys
    }

    /** `__init__`: empty maps and one OWNER token of the default validity.
        `value` is the value the `Token` constructor supplies. */
    constructor(value: string, now: int)
      ensures Valid()
      ensures users == map[] && admins == map[] && banned == map[]
      ensures tokens == map[value := Make(Owner, 1, value, now)]
    {
      users := map[];
      admins := map[];
      banned := map[];
      tokens := map[];
      new;
      CreateNewToken(Owner, value := value, now := now);
    }

    /** `create_new_token(role, valid_for=1)`: store one token under its value;
        every other entry keeps its token. */
    method CreateNewToken(role: Role, validFor: int := 1, value: string, now: int)
      modifies this`tokens
      ensures tokens == old(tokens)[value := Make(role, validFor, value, now)]
    {
      var token := Make(role, validFor, value, now);
      tokens := tokens[token.value := token];
    }

    /** `ban_user` as written: the user is popped from `users`, and line 29
        only looks `banned[chat_id]` up, which raises KeyError when the id is
        not banned. `raised` reports that error; `banned` never grows, so
        the user ends up in neither map. */
    method BanUserAsWritten(id: int) returns (raised: bool)
      requires Valid()
      modifies this`users
      ensures Valid()
      ensures banned == old(banned)
      ensures id !in old(users) ==> users == old(users) && !raised
      ensures id in old(users) ==> users == old(users) - {id} && raised == (old(users)[id].chatId !in banned)
      ensures id in old(users) && old(users)[id].chatId == id ==> raised && id !in users && id !in banned
    {
      raised := false;
      if id in users {
        var user := users[id];
        users := users - {id};
        raised := user.chatId !in banned;
      }
    }

    /** `ban_user` as intended: move the user from `users` to `banned`
        under its chat id; other users are unchanged. */
    method BanUser(id: int) returns (moved: bool)
      requires Valid()
      modifies this`users, this`banned
      ensures Valid()
      ensures moved <==> id in old(users)
      ensures !moved ==> users == old(users) && banned == old(banned)
      ensures moved ==> users == old(users) - {id} && banned == old(banned)[old(users)[id].chatId := old(users)[id]]
    {
      moved := id in users;
      if moved {
        var user := users[id];
        users := users - {id};
        banned := banned[user.chatId := user];
      }
    }
  }
}
